/** The application payload of an automatic deployment: which tag and digest each application gets. */
module AutoDeploy {
  import opened Calls

  /** `created` is the parsed creation time; a time that does not parse is the zero time, 0. */
  datatype Tag = Tag(name: string, digest: string, created: int)

  datatype ImageStream = ImageStream(codebase: string, tags: seq<Tag>)

  datatype Payload = Payload(tag: string, digest: string)

  datatype Error = StreamUnavailable | LastTagNotFound

  datatype Result<+T> = Success(value: T) | Failure(error: Error)

  // ---------- the latest tag ----------

  /** k is the first of the tags with the greatest creation time, and that time is after the zero time. */
  predicate IsLatest(tags: seq<Tag>, k: nat) {
    && k < |tags| && tags[k].created > 0
    && (forall j :: 0 <= j < k ==> tags[j].created < tags[k].created)
    && (forall j :: k <= j < |tags| ==> tags[j].created <= tags[k].created)
  }

  ghost predicate HasLatest(tags: seq<Tag>) {
    exists k: nat :: IsLatest(tags, k) && tags[k].name != ""
  }

  /** GetLastTag. An unnamed latest tag counts as none at all. */
  method GetLastTag(tags: seq<Tag>) returns (r: Result<Tag>)
    ensures r == LastTag(tags)
    ensures r.Success? <==> HasLatest(tags)
    ensures r.Success? ==> exists k: nat :: IsLatest(tags, k) && r.value == tags[k] && r.value.name != ""
    ensures r.Failure? ==> r.error == LastTagNotFound
  {
    var latest, time := Tag("", "", 0), 0;
    ghost var k: int := -1;
    for i := 0 to |tags|
      invariant k == -1 ==> latest.name == "" && time == 0 && forall j :: 0 <= j < i ==> tags[j].created <= 0
      invariant k != -1 ==> 0 <= k < i && latest == tags[k] && time == latest.created && IsLatest(tags[..i], k)
    {
      assert tags[..i + 1][..i] == tags[..i];
      if tags[i].created > time {
        latest, time, k := tags[i], tags[i].created, i;
      }
    }
    assert tags[..|tags|] == tags;
    LatestIsUnique(tags);
    r := if latest.name == "" then Failure(LastTagNotFound) else Success(latest);
  }

  /** The latest tag as a function of the tags, for use in specifications. */
  ghost function LastTag(tags: seq<Tag>): Result<Tag> {
    if HasLatest(tags) then
      var k: nat :| IsLatest(tags, k) && tags[k].name != "";
      Success(tags[k])
    else Failure(LastTagNotFound)
  }

  lemma LatestIsUnique(tags: seq<Tag>)
    ensures forall j: nat, k: nat :: IsLatest(tags, j) && IsLatest(tags, k) ==> j == k
  {
    forall j: nat, k: nat | IsLatest(tags, j) && IsLatest(tags, k) ensures j == k {
      var lo, hi := if j < k then j else k, if j < k then k else j;
      assert tags[hi].created <= tags[lo].created;
    }
  }

  /** findDigestByTagName: the digest of the first tag of that name, or empty. */
  method FindDigestByTagName(tags: seq<Tag>, name: string) returns (digest: string)
    ensures digest == DigestOf(tags, name)
    ensures forall k: nat :: IsFirstNamed(tags, name, k) ==> digest == tags[k].digest
    ensures (forall t <- tags :: t.name != name) ==> digest == ""
  {
    DigestIsOfFirstTag(tags, name);
    for i := 0 to |tags|
      invariant DigestOf(tags, name) == DigestOf(tags[i..], name)
    {
      assert tags[i..][1..] == tags[i + 1..];
      if tags[i].name == name {
        return tags[i].digest;
      }
    }
    return "";
  }

  function DigestOf(tags: seq<Tag>, name: string): string {
    if tags == [] then "" else if tags[0].name == name then tags[0].digest else DigestOf(tags[1..], name)
  }

  /** The first tag of the name is the k-th. */
  predicate IsFirstNamed(tags: seq<Tag>, name: string, k: nat) {
    k < |tags| && tags[k].name == name && forall j :: 0 <= j < k ==> tags[j].name != name
  }

  lemma {:induction false} DigestIsOfFirstTag(tags: seq<Tag>, name: string)
    ensures forall k: nat :: IsFirstNamed(tags, name, k) ==> DigestOf(tags, name) == tags[k].digest
    ensures (forall t <- tags :: t.name != name) ==> DigestOf(tags, name) == ""
  {
    if tags != [] && tags[0].name != name {
      DigestIsOfFirstTag(tags[1..], name);
      forall k: nat | IsFirstNamed(tags, name, k) ensures DigestOf(tags, name) == tags[k].digest {
        assert IsFirstNamed(tags[1..], name, k - 1);
      }
    } else {
      assert forall k: nat :: IsFirstNamed(tags, name, k) ==> k == 0;
    }
  }

  // ---------- the payloads ----------

  /** What looking up one input stream returned; None when there is not exactly one image stream. */
  type Stream = Option<ImageStream>

  type Apps = map<string, Payload>

  predicate IsOf(s: Stream, codebase: string) {
    s.Some? && s.value.codebase == codebase
  }

  /** Streams are served in order, and the first failure ends the computation. */
  ghost function StreamError(s: Stream): Option<Error> {
    if s.None? then Some(StreamUnavailable)
    else if HasLatest(s.value.tags) then None
    else Some(LastTagNotFound)
  }

  ghost predicate Readable(streams: seq<Stream>) {
    forall k :: 0 <= k < |streams| ==> StreamError(streams[k]).None?
  }

  /** The i-th stream is the first that cannot be used, for this reason. */
  ghost predicate BreaksAt(streams: seq<Stream>, i: nat, error: Error) {
    && i < |streams|
    && (forall j :: 0 <= j < i ==> streams[j].Some? && HasLatest(streams[j].value.tags))
    && (if streams[i].None? then error == StreamUnavailable
        else !HasLatest(streams[i].value.tags) && error == LastTagNotFound)
  }

  ghost function FirstError(streams: seq<Stream>): Option<Error> {
    if streams == [] then None
    else
      var before := FirstError(streams[..|streams| - 1]);
      if before.Some? then before else StreamError(streams[|streams| - 1])
  }

  ghost function LatestPayload(s: Stream): Payload
    requires StreamError(s).None?
  {
    var t := LastTag(s.value.tags).value;
    Payload(t.name, t.digest)
  }

  /** One stream of the all-latest strategy. */
  ghost function PutLatest(apps: Apps, s: Stream): Apps
    requires StreamError(s).None?
  {
    apps[s.value.codebase := LatestPayload(s)]
  }

  /** One stream of the stable strategy: a new application gets the latest tag, a known one keeps its tag
      and has a missing digest looked up. */
  ghost function PutStable(apps: Apps, s: Stream): Apps
    requires StreamError(s).None?
  {
    var c := s.value.codebase;
    if c !in apps then apps[c := LatestPayload(s)]
    else if apps[c].digest == "" then apps[c := apps[c].(digest := DigestOf(s.value.tags, apps[c].tag))]
    else apps
  }

  ghost function AllLatest(streams: seq<Stream>): Apps
    requires Readable(streams)
  {
    if streams == [] then map[] else PutLatest(AllLatest(streams[..|streams| - 1]), streams[|streams| - 1])
  }

  ghost function Stable(base: Apps, streams: seq<Stream>): Apps
    requires Readable(streams)
  {
    if streams == [] then base else PutStable(Stable(base, streams[..|streams| - 1]), streams[|streams| - 1])
  }

  /** What the stable strategy starts from: annotated applications, then the application deployed now. */
  function Base(applications: seq<string>, annotations: map<string, string>, codebase: string, current: Payload): Apps {
    (map a | a in applications && a in annotations :: Payload(annotations[a], ""))[codebase := current]
  }

  /** GetAppPayloadForAllLatestStrategy. */
  method GetAllLatest(streams: seq<Stream>) returns (r: Result<Apps>)
    ensures r.Success? <==> Readable(streams)
    ensures r.Success? ==> r.value == AllLatest(streams)
    ensures r.Success? ==> forall c :: c in r.value <==> HasStream(streams, c)
    ensures r.Success? ==> forall c, k: nat, t: nat ::
      IsLastOf(streams, c, k) && IsLatest(streams[k].value.tags, t) ==>
      c in r.value && r.value[c] == Payload(streams[k].value.tags[t].name, streams[k].value.tags[t].digest)
    ensures r.Failure? ==> FirstError(streams) == Some(r.error) && exists i: nat :: BreaksAt(streams, i, r.error)
  {
    var apps: Apps := map[];
    for i := 0 to |streams|
      invariant forall j :: 0 <= j < i ==> StreamError(streams[j]).None?
      invariant Readable(streams[..i]) && apps == AllLatest(streams[..i])
    {
      assert streams[..i + 1][..i] == streams[..i];
      if streams[i].None? {
        ErrorIsFirst(streams, i);
        assert BreaksAt(streams, i, StreamUnavailable);
        return Failure(StreamUnavailable);
      }
      var tag := GetLastTag(streams[i].value.tags);
      if tag.Failure? {
        ErrorIsFirst(streams, i);
        assert BreaksAt(streams, i, tag.error);
        return Failure(tag.error);
      }
      apps := apps[streams[i].value.codebase := Payload(tag.value.name, tag.value.digest)];
    }
    assert streams[..|streams|] == streams;
    forall c
      ensures c in apps <==> HasStream(streams, c)
      ensures forall k: nat, t: nat :: IsLastOf(streams, c, k) && IsLatest(streams[k].value.tags, t) ==>
        c in apps && apps[c] == Payload(streams[k].value.tags[t].name, streams[k].value.tags[t].digest)
    {
      AllLatestTags(streams, c);
    }
    r := Success(apps);
  }

  /** GetAppPayloadForCurrentWithStableStrategy; `annotations` holds the stage's annotations by
      application. */
  method GetStable(
    codebase: string, current: Payload, applications: seq<string>, annotations: map<string, string>,
    streams: seq<Stream>) returns (r: Result<Apps>)
    ensures r.Success? <==> Readable(streams)
    ensures r.Success? ==> r.value == Stable(Base(applications, annotations, codebase, current), streams)
    ensures r.Success? ==>
      codebase in r.value && r.value[codebase].tag == current.tag &&
      (current.digest != "" ==> r.value[codebase].digest == current.digest)
    ensures r.Success? ==> forall a <- applications :: a in annotations && a != codebase ==>
      a in r.value && r.value[a].tag == annotations[a]
    ensures r.Success? ==> forall c ::
      c in r.value <==> c == codebase || (c in applications && c in annotations) || HasStream(streams, c)
    ensures r.Failure? ==> FirstError(streams) == Some(r.error) && exists i: nat :: BreaksAt(streams, i, r.error)
  {
    var apps := StartStable(codebase, current, applications, annotations);
    ghost var base := apps;
    for i := 0 to |streams|
      invariant forall j :: 0 <= j < i ==> StreamError(streams[j]).None?
      invariant Readable(streams[..i]) && apps == Stable(base, streams[..i])
    {
      assert streams[..i + 1][..i] == streams[..i];
      if streams[i].None? {
        ErrorIsFirst(streams, i);
        assert BreaksAt(streams, i, StreamUnavailable);
        return Failure(StreamUnavailable);
      }
      var stream := streams[i].value;
      var tag := GetLastTag(stream.tags);
      if tag.Failure? {
        ErrorIsFirst(streams, i);
        assert BreaksAt(streams, i, tag.error);
        return Failure(tag.error);
      }
      if stream.codebase !in apps {
        apps := apps[stream.codebase := Payload(tag.value.name, tag.value.digest)];
      } else if apps[stream.codebase].digest == "" {
        var digest := FindDigestByTagName(stream.tags, apps[stream.codebase].tag);
        apps := apps[stream.codebase := apps[stream.codebase].(digest := digest)];
      }
    }
    assert streams[..|streams|] == streams;
    forall c
      ensures c in apps <==> c == codebase || (c in applications && c in annotations) || HasStream(streams, c)
      ensures c != codebase && c in applications && c in annotations ==> apps[c].tag == annotations[c]
    {
      StableTags(codebase, current, applications, annotations, streams, c);
    }
    StableTags(codebase, current, applications, annotations, streams, codebase);
    StableDigests(codebase, current, applications, annotations, streams, codebase);
    r := Success(apps);
  }

  method StartStable(codebase: string, current: Payload, applications: seq<string>, annotations: map<string, string>)
    returns (apps: Apps)
    ensures apps == Base(applications, annotations, codebase, current)
  {
    apps := map[];
    for i := 0 to |applications|
      invariant apps == map a | a in applications[..i] && a in annotations :: Payload(annotations[a], "")
    {
      var app := applications[i];
      assert applications[..i + 1] == applications[..i] + [app];
      if app in annotations {
        apps := apps[app := Payload(annotations[app], "")];
      }
    }
    assert applications[..|applications|] == applications;
    apps := apps[codebase := current];
  }

  /** The error of the first unreadable stream is the one reported. */
  lemma {:induction false} ErrorIsFirst(streams: seq<Stream>, i: nat)
    requires i < |streams| && Readable(streams[..i]) && StreamError(streams[i]).Some?
    ensures FirstError(streams) == StreamError(streams[i])
    decreases |streams|
  {
    var before := streams[..|streams| - 1];
    if i == |streams| - 1 {
      NoFirstError(before);
    } else {
      assert before[..i] == streams[..i];
      ErrorIsFirst(before, i);
    }
  }

  lemma {:induction false} NoFirstError(streams: seq<Stream>)
    requires Readable(streams)
    ensures FirstError(streams).None?
  {
    if streams != [] {
      NoFirstError(streams[..|streams| - 1]);
    }
  }

  // ---------- what the payloads are, application by application ----------

  /** The position of the codebase's last stream, or of its first. */
  function LastStream(streams: seq<Stream>, c: string): (k: Option<nat>)
    ensures k.Some? ==> k.value < |streams| && IsOf(streams[k.value], c)
    ensures k.Some? ==> forall j :: k.value < j < |streams| ==> !IsOf(streams[j], c)
    ensures k.None? ==> forall j :: 0 <= j < |streams| ==> !IsOf(streams[j], c)
  {
    if streams == [] then None
    else if IsOf(streams[|streams| - 1], c) then Some(|streams| - 1)
    else LastStream(streams[..|streams| - 1], c)
  }

  function FirstStream(streams: seq<Stream>, c: string): (k: Option<nat>)
    ensures k.Some? ==> k.value < |streams| && IsOf(streams[k.value], c)
    ensures k.Some? ==> forall j :: 0 <= j < k.value ==> !IsOf(streams[j], c)
    ensures k.None? ==> forall j :: 0 <= j < |streams| ==> !IsOf(streams[j], c)
  {
    if streams == [] then None
    else
      var before := FirstStream(streams[..|streams| - 1], c);
      if before.Some? then before
      else if IsOf(streams[|streams| - 1], c) then Some(|streams| - 1) else None
  }

  /** What the codebase's streams say of a tag's digest, in order, from a position on. */
  function Lookups(streams: seq<Stream>, c: string, tag: string, from: nat): seq<string> {
    if |streams| <= from then []
    else
      var last := streams[|streams| - 1];
      Lookups(streams[..|streams| - 1], c, tag, from) + if IsOf(last, c) then [DigestOf(last.value.tags, tag)] else []
  }

  function FirstNonEmpty(xs: seq<string>): string {
    if xs == [] then "" else if xs[0] != "" then xs[0] else FirstNonEmpty(xs[1..])
  }

  /** A payload whose tag is settled, with the digest completed by the streams from a position on: the
      first digest that is not empty. */
  function Completed(p: Payload, streams: seq<Stream>, c: string, from: nat): Payload {
    Payload(p.tag, FirstNonEmpty([p.digest] + Lookups(streams, c, p.tag, from)))
  }

  /** The payload of one application under the stable strategy: a tag fixed in advance stands, another
      application takes the latest tag of its first stream; later streams complete the digest. */
  ghost function Expected(base: Apps, streams: seq<Stream>, c: string): Option<Payload>
    requires Readable(streams)
  {
    if c in base then Some(Completed(base[c], streams, c, 0))
    else
      match FirstStream(streams, c)
      case None => None
      case Some(k) =>
        Some(Completed(LatestPayload(streams[k]), streams, c, k + 1))
  }

  lemma {:induction false} FirstNonEmptyGrows(xs: seq<string>, x: string)
    ensures FirstNonEmpty(xs + [x]) == if FirstNonEmpty(xs) != "" then FirstNonEmpty(xs) else x
  {
    if xs != [] {
      assert (xs + [x])[1..] == xs[1..] + [x];
      FirstNonEmptyGrows(xs[1..], x);
    }
  }

  function At(apps: Apps, c: string): Option<Payload> {
    if c in apps then Some(apps[c]) else None
  }

  /** What one more stream makes of an application's payload. */
  ghost function Stepped(p: Option<Payload>, s: Stream, c: string): Option<Payload>
    requires StreamError(s).None?
  {
    if !IsOf(s, c) then p
    else if p.None? then Some(LatestPayload(s))
    else if p.value.digest == "" then Some(p.value.(digest := DigestOf(s.value.tags, p.value.tag)))
    else p
  }

  lemma ExpectedSteps(base: Apps, streams: seq<Stream>, c: string)
    requires streams != [] && Readable(streams)
    ensures Expected(base, streams, c) ==
            Stepped(Expected(base, streams[..|streams| - 1], c), streams[|streams| - 1], c)
  {
    var n := |streams| - 1;
    if c in base {
      CompletedSteps(base[c], streams, c, 0);
    } else if FirstStream(streams[..n], c).Some? {
      LaterStreamSteps(base, streams, c);
    } else if IsOf(streams[n], c) {
      var p := LatestPayload(streams[n]);
      CompletedByNone(p, streams, c, n + 1);
      assert Expected(base, streams, c) == Some(p);
    }
  }

  lemma LaterStreamSteps(base: Apps, streams: seq<Stream>, c: string)
    requires streams != [] && Readable(streams)
    requires c !in base && FirstStream(streams[..|streams| - 1], c).Some?
    ensures Expected(base, streams, c) ==
            Stepped(Expected(base, streams[..|streams| - 1], c), streams[|streams| - 1], c)
  {
    var before := streams[..|streams| - 1];
    var k := FirstStream(before, c).value;
    var p := LatestPayload(streams[k]);
    assert Expected(base, before, c) == Some(Completed(p, before, c, k + 1));
    assert Expected(base, streams, c) == Some(Completed(p, streams, c, k + 1));
    CompletedSteps(p, streams, c, k + 1);
  }

  /** The stable payload, application by application: it has exactly the expected applications (those
      fixed in advance and the streams' codebases), each with the expected tag and digest. */
  lemma {:induction false} StableIsRight(base: Apps, streams: seq<Stream>, c: string)
    requires Readable(streams)
    ensures At(Stable(base, streams), c) == Expected(base, streams, c)
    ensures c in Stable(base, streams) <==> c in base || FirstStream(streams, c).Some?
    decreases |streams|
  {
    if streams == [] {
      if c in base {
        CompletedByNone(base[c], streams, c, 0);
      }
    } else {
      StableIsRight(base, streams[..|streams| - 1], c);
      ExpectedSteps(base, streams, c);
    }
  }

  lemma CompletedByNone(p: Payload, streams: seq<Stream>, c: string, from: nat)
    requires |streams| <= from
    ensures Completed(p, streams, c, from) == p
  {
    FirstNonEmptyGrows([], p.digest);
    assert [p.digest] + Lookups(streams, c, p.tag, from) == [] + [p.digest];
  }

  /** One more stream looks at the digest only when it belongs to the codebase and none was found yet. */
  lemma CompletedSteps(p: Payload, streams: seq<Stream>, c: string, from: nat)
    requires from < |streams|
    ensures var before, last := Completed(p, streams[..|streams| - 1], c, from), streams[|streams| - 1];
      Completed(p, streams, c, from) ==
        if before.digest == "" && IsOf(last, c) then before.(digest := DigestOf(last.value.tags, p.tag)) else before
  {
    var last := streams[|streams| - 1];
    var found := Lookups(streams[..|streams| - 1], c, p.tag, from);
    if IsOf(last, c) {
      var d := DigestOf(last.value.tags, p.tag);
      assert [p.digest] + (found + [d]) == ([p.digest] + found) + [d];
      FirstNonEmptyGrows([p.digest] + found, d);
    } else {
      assert found + [] == found;
    }
  }

  /** The all-latest payload: the codebases of the streams, each with the latest tag of its last one. */
  lemma {:induction false} AllLatestIsRight(streams: seq<Stream>, c: string)
    requires Readable(streams)
    ensures c in AllLatest(streams) <==> LastStream(streams, c).Some?
    ensures match LastStream(streams, c)
      case None => true
      case Some(k) => k < |streams| && IsOf(streams[k], c) && StreamError(streams[k]).None? &&
                      AllLatest(streams)[c] == LatestPayload(streams[k])
    decreases |streams|
  {
    if streams != [] {
      AllLatestIsRight(streams[..|streams| - 1], c);
    }
  }

  // ---------- what a caller gets ----------

  /** What the streams say of a tag, from a position on: the first digest that is not empty, if any. */
  predicate IsFirstFound(streams: seq<Stream>, c: string, tag: string, from: nat, k: nat) {
    && from <= k < |streams| && IsOf(streams[k], c) && DigestOf(streams[k].value.tags, tag) != ""
    && forall j :: from <= j < k && IsOf(streams[j], c) ==> DigestOf(streams[j].value.tags, tag) == ""
  }

  predicate NothingFound(streams: seq<Stream>, c: string, tag: string, from: nat) {
    forall j :: from <= j < |streams| && IsOf(streams[j], c) ==> DigestOf(streams[j].value.tags, tag) == ""
  }

  /** Completing a payload keeps its tag and any digest it has, and otherwise takes the first that is found. */
  lemma {:induction false} CompletedIsRight(p: Payload, streams: seq<Stream>, c: string, from: nat)
    ensures var q := Completed(p, streams, c, from);
      && q.tag == p.tag
      && (p.digest != "" ==> q.digest == p.digest)
      && (p.digest == "" ==>
            && (forall k: nat :: IsFirstFound(streams, c, p.tag, from, k) ==>
                  q.digest == DigestOf(streams[k].value.tags, p.tag))
            && (NothingFound(streams, c, p.tag, from) ==> q.digest == ""))
    decreases |streams|
  {
    if |streams| <= from {
      CompletedByNone(p, streams, c, from);
    } else {
      var n := |streams| - 1;
      CompletedIsRight(p, streams[..n], c, from);
      CompletedSteps(p, streams, c, from);
      if p.digest == "" {
        forall k: nat | IsFirstFound(streams, c, p.tag, from, k)
          ensures Completed(p, streams, c, from).digest == DigestOf(streams[k].value.tags, p.tag)
        {
          if k < n {
            assert IsFirstFound(streams[..n], c, p.tag, from, k);
          } else {
            assert NothingFound(streams[..n], c, p.tag, from);
          }
        }
        if NothingFound(streams, c, p.tag, from) {
          assert NothingFound(streams[..n], c, p.tag, from);
        }
      }
    }
  }

  /** The k-th stream is the codebase's first, or its last. */
  predicate IsFirstOf(streams: seq<Stream>, c: string, k: nat) {
    k < |streams| && IsOf(streams[k], c) && forall j :: 0 <= j < k ==> !IsOf(streams[j], c)
  }

  predicate IsLastOf(streams: seq<Stream>, c: string, k: nat) {
    k < |streams| && IsOf(streams[k], c) && forall j :: k < j < |streams| ==> !IsOf(streams[j], c)
  }

  predicate HasStream(streams: seq<Stream>, c: string) {
    exists k :: 0 <= k < |streams| && IsOf(streams[k], c)
  }

  lemma LatestPayloadIsRight(s: Stream)
    requires StreamError(s).None?
    ensures forall t: nat :: IsLatest(s.value.tags, t) ==>
      LatestPayload(s) == Payload(s.value.tags[t].name, s.value.tags[t].digest)
  {
    LatestIsUnique(s.value.tags);
  }

  /** Which applications the stable strategy deploys, from the caller's side. */
  lemma StableKeys(base: Apps, streams: seq<Stream>, c: string)
    requires Readable(streams)
    ensures c in Stable(base, streams) <==> c in base || HasStream(streams, c)
  {
    StableIsRight(base, streams, c);
    if FirstStream(streams, c).Some? {
      assert IsOf(streams[FirstStream(streams, c).value], c);
    }
  }

  /** With which tags: the application that triggered the deployment has the tag it was triggered with,
      whatever the annotations say; any other annotated application of the pipeline has the annotated tag;
      the rest have the latest tag of their first stream. */
  lemma StableTags(
    codebase: string, current: Payload, applications: seq<string>, annotations: map<string, string>,
    streams: seq<Stream>, c: string)
    requires Readable(streams)
    ensures var apps := Stable(Base(applications, annotations, codebase, current), streams);
      var annotated := c in applications && c in annotations;
      && (c in apps <==> c == codebase || annotated || HasStream(streams, c))
      && (c == codebase ==> apps[c].tag == current.tag)
      && (c != codebase && annotated ==> apps[c].tag == annotations[c])
      && (c != codebase && !annotated ==> forall k: nat, t: nat ::
            IsFirstOf(streams, c, k) && IsLatest(streams[k].value.tags, t) ==>
            apps[c].tag == streams[k].value.tags[t].name)
  {
    var base := Base(applications, annotations, codebase, current);
    StableKeys(base, streams, c);
    StableIsRight(base, streams, c);
    if c in base {
      CompletedIsRight(base[c], streams, c, 0);
    } else if FirstStream(streams, c).Some? {
      var k := FirstStream(streams, c).value;
      assert forall j: nat :: IsFirstOf(streams, c, j) ==> j == k;
      LatestPayloadIsRight(streams[k]);
      CompletedIsRight(LatestPayload(streams[k]), streams, c, k + 1);
    }
  }

  /** With which digests: one that came with the tag stays; otherwise it is the first that the codebase's
      streams, after the one the tag is from, know for the tag. */
  lemma StableDigests(
    codebase: string, current: Payload, applications: seq<string>, annotations: map<string, string>,
    streams: seq<Stream>, c: string)
    requires Readable(streams) && (c == codebase || (c in applications && c in annotations))
    ensures c in Stable(Base(applications, annotations, codebase, current), streams)
    ensures var digest := Stable(Base(applications, annotations, codebase, current), streams)[c].digest;
      var tag := if c == codebase then current.tag else annotations[c];
      if c == codebase && current.digest != "" then digest == current.digest
      else
        && (forall k: nat :: IsFirstFound(streams, c, tag, 0, k) ==> digest == DigestOf(streams[k].value.tags, tag))
        && (NothingFound(streams, c, tag, 0) ==> digest == "")
  {
    var base := Base(applications, annotations, codebase, current);
    StableIsRight(base, streams, c);
    CompletedIsRight(base[c], streams, c, 0);
  }

  lemma StableStreamDigests(base: Apps, streams: seq<Stream>, c: string, k: nat, t: nat)
    requires Readable(streams) && c !in base
    requires IsFirstOf(streams, c, k) && IsLatest(streams[k].value.tags, t)
    ensures c in Stable(base, streams)
    ensures var digest, tag := Stable(base, streams)[c].digest, streams[k].value.tags[t];
      if tag.digest != "" then digest == tag.digest
      else
        && (forall j: nat :: IsFirstFound(streams, c, tag.name, k + 1, j) ==>
              digest == DigestOf(streams[j].value.tags, tag.name))
        && (NothingFound(streams, c, tag.name, k + 1) ==> digest == "")
  {
    StableIsRight(base, streams, c);
    assert FirstStream(streams, c) == Some(k);
    LatestPayloadIsRight(streams[k]);
    CompletedIsRight(LatestPayload(streams[k]), streams, c, k + 1);
  }

  /** The payload of the all-latest strategy, from the caller's side. */
  lemma AllLatestTags(streams: seq<Stream>, c: string)
    requires Readable(streams)
    ensures c in AllLatest(streams) <==> HasStream(streams, c)
    ensures forall k: nat, t: nat :: IsLastOf(streams, c, k) && IsLatest(streams[k].value.tags, t) ==>
      AllLatest(streams)[c] == Payload(streams[k].value.tags[t].name, streams[k].value.tags[t].digest)
  {
    AllLatestIsRight(streams, c);
    if LastStream(streams, c).Some? {
      var k := LastStream(streams, c).value;
      assert forall j: nat :: IsLastOf(streams, c, j) ==> j == k;
      LatestPayloadIsRight(streams[k]);
    }
  }
}
