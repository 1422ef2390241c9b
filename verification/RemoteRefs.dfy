/**
  Packless git operations: resolving a reference against a remote's advertisement, and creating a branch
  with a single create-only command.
*/
module RemoteRefs {
  import opened Calls

  /** An object id in its canonical form of 40 lower-case hexadecimal digits. */
  type Hash = string

  /** What upload-pack advertises: HEAD, the references by full name, and the peeled annotated tags. */
  datatype Advertisement = Advertisement(head: Option<Hash>, refs: map<string, Hash>, peeled: map<string, Hash>)

  function BranchRef(name: string): string { "refs/heads/" + name }

  function TagRef(name: string): string { "refs/tags/" + name }

  // ---------- hexadecimal, as plumbing.NewHash and Hash.String treat it ----------

  const HASH_BYTES := 20

  predicate IsHexDigit(c: char) {
    '0' <= c <= '9' || 'a' <= c <= 'f' || 'A' <= c <= 'F'
  }

  function Digit(c: char): (d: nat)
    requires IsHexDigit(c)
    ensures d < 16
  {
    if c <= '9' then c as int - '0' as int
    else if c <= 'F' then c as int - 'A' as int + 10
    else c as int - 'a' as int + 10
  }

  function DigitChar(d: nat): char
    requires d < 16
  {
    if d < 10 then '0' + d as char else 'a' + (d - 10) as char
  }

  function LowerChar(c: char): char {
    if 'A' <= c <= 'Z' then c - 'A' + 'a' else c
  }

  function Lower(s: string): (t: string)
    ensures |t| == |s|
  {
    seq(|s|, i requires 0 <= i < |s| => LowerChar(s[i]))
  }

  predicate EqualFold(s: string, t: string) {
    Lower(s) == Lower(t)
  }

  /** hex.DecodeString with its error ignored: the bytes before the first pair that is not hexadecimal. */
  function DecodePrefix(s: string): seq<nat> {
    if |s| < 2 || !IsHexDigit(s[0]) || !IsHexDigit(s[1]) then []
    else [16 * Digit(s[0]) + Digit(s[1])] + DecodePrefix(s[2..])
  }

  /** plumbing.NewHash: 20 bytes, cut off or padded with zeros. */
  function NewHash(s: string): (h: seq<nat>)
    ensures |h| == HASH_BYTES
  {
    var b := DecodePrefix(s);
    seq(HASH_BYTES, i => if 0 <= i < |b| then b[i] else 0)
  }

  predicate IsZero(h: seq<nat>) {
    forall b <- h :: b == 0
  }

  function Encode(h: seq<nat>): string {
    if h == [] then ""
    else [DigitChar(h[0] / 16 % 16), DigitChar(h[0] % 16)] + Encode(h[1..])
  }

  /** What the source accepts as a full commit hash: its decoding is not zero and spells the input. */
  function AsHash(s: string): Option<Hash> {
    var h := NewHash(s);
    if !IsZero(h) && EqualFold(Encode(h), s) then Some(Encode(h)) else None
  }

  predicate IsFullHash(s: string) {
    |s| == 2 * HASH_BYTES && (forall c <- s :: IsHexDigit(c)) && exists c <- s :: c != '0'
  }

  // ---------- resolution ----------

  /** resolveAdvertisedRef. */
  function Resolve(adv: Advertisement, ref: string): Option<Hash> {
    if ref == "" then adv.head
    else if BranchRef(ref) in adv.refs then Some(adv.refs[BranchRef(ref)])
    else if TagRef(ref) in adv.peeled then Some(adv.peeled[TagRef(ref)])
    else if TagRef(ref) in adv.refs then Some(adv.refs[TagRef(ref)])
    else AsHash(ref)
  }

  lemma DigitRoundTrip(c: char)
    requires IsHexDigit(c)
    ensures DigitChar(Digit(c)) == LowerChar(c)
    ensures Digit(c) == 0 <==> c == '0'
  {
  }

  lemma {:induction false} EncodeLength(h: seq<nat>)
    ensures |Encode(h)| == 2 * |h|
    ensures forall c <- Encode(h) :: IsHexDigit(c) && LowerChar(c) == c
  {
    if h != [] {
      EncodeLength(h[1..]);
    }
  }

  lemma ByteDigits(hi: nat, lo: nat)
    requires hi < 16 && lo < 16
    ensures (16 * hi + lo) / 16 % 16 == hi && (16 * hi + lo) % 16 == lo
  {
  }

  /** Decoding and encoding a string of hexadecimal pairs lower-cases it. */
  lemma {:induction false} EncodeDecode(s: string)
    requires |s| % 2 == 0 && forall c <- s :: IsHexDigit(c)
    ensures 2 * |DecodePrefix(s)| == |s| && Encode(DecodePrefix(s)) == Lower(s)
  {
    if s != [] {
      EncodeDecode(s[2..]);
      DigitRoundTrip(s[0]);
      DigitRoundTrip(s[1]);
      ByteDigits(Digit(s[0]), Digit(s[1]));
      assert Lower(s) == [LowerChar(s[0]), LowerChar(s[1])] + Lower(s[2..]);
    }
  }

  lemma {:induction false} DecodesToZero(s: string)
    requires |s| % 2 == 0 && forall c <- s :: IsHexDigit(c)
    ensures IsZero(DecodePrefix(s)) <==> forall c <- s :: c == '0'
  {
    if s != [] {
      DecodesToZero(s[2..]);
      DigitRoundTrip(s[0]);
      DigitRoundTrip(s[1]);
      var b := 16 * Digit(s[0]) + Digit(s[1]);
      assert DecodePrefix(s) == [b] + DecodePrefix(s[2..]);
      assert b in DecodePrefix(s) && forall x <- DecodePrefix(s[2..]) :: x in DecodePrefix(s);
      assert forall x <- DecodePrefix(s) :: x == b || x in DecodePrefix(s[2..]);
      assert s == [s[0], s[1]] + s[2..];
      assert s[0] in s && s[1] in s && forall c <- s[2..] :: c in s;
      assert forall c <- s :: c == s[0] || c == s[1] || c in s[2..];
    }
  }

  lemma FoldKeepsHex(c: char, d: char)
    requires LowerChar(c) == LowerChar(d) && IsHexDigit(c)
    ensures IsHexDigit(d)
  {
  }

  /** The test for a full hash accepts exactly the strings of 40 hexadecimal digits that are not all
      zero, and canonicalises them to lower case. */
  lemma AsHashIsExact(s: string)
    ensures AsHash(s).Some? <==> IsFullHash(s)
    ensures IsFullHash(s) ==> AsHash(s) == Some(Lower(s))
  {
    var h := NewHash(s);
    EncodeLength(h);
    if |s| == 2 * HASH_BYTES && forall c <- s :: IsHexDigit(c) {
      EncodeDecode(s);
      DecodesToZero(s);
      assert h == DecodePrefix(s);
      assert Lower(Lower(s)) == Lower(s);
    } else if EqualFold(Encode(h), s) {
      forall i | 0 <= i < |s| ensures IsHexDigit(s[i]) {
        assert Lower(Encode(h))[i] == Lower(s)[i];
        FoldKeepsHex(Encode(h)[i], s[i]);
      }
    }
  }

  /** No reference at all is the remote's HEAD. */
  lemma ResolveHead(adv: Advertisement)
    ensures Resolve(adv, "") == adv.head
  {
  }

  /** A reference resolves to the branch of that name, else to the commit of the tag, else, when it is a
      full hash, to itself in lower case; and to nothing in any other case. */
  lemma ResolveIsExact(adv: Advertisement, ref: string)
    requires ref != ""
    ensures BranchRef(ref) in adv.refs ==> Resolve(adv, ref) == Some(adv.refs[BranchRef(ref)])
    ensures BranchRef(ref) !in adv.refs ==>
      && (TagRef(ref) in adv.peeled ==> Resolve(adv, ref) == Some(adv.peeled[TagRef(ref)]))
      && (TagRef(ref) !in adv.peeled && TagRef(ref) in adv.refs ==> Resolve(adv, ref) == Some(adv.refs[TagRef(ref)]))
      && (TagRef(ref) !in adv.peeled && TagRef(ref) !in adv.refs ==>
            Resolve(adv, ref) == if IsFullHash(ref) then Some(Lower(ref)) else None)
  {
    AsHashIsExact(ref);
  }

  // ---------- creating a branch ----------

  /** The receiving server's answer to a create command, whose old value is the zero id: it applies only
      when there is no such reference and the server holds the commit it is to point at. */
  function ReceiveCreate(refs: map<string, Hash>, commits: set<Hash>, ref: string, hash: Hash)
    : (after: map<string, Hash>)
    ensures forall n <- refs :: n in after && after[n] == refs[n]
    ensures ref in after <==> ref in refs || hash in commits
    ensures ref in after && ref !in refs ==> after[ref] == hash
  {
    if ref in refs || hash !in commits then refs else refs[ref := hash]
  }

  /** The remote repository: its references, and the commits it holds. Others may add to both at any time;
      nobody moves or deletes a reference. While it is calm nobody adds anything and every call to it
      succeeds. */
  class Remote {
    var head: Option<Hash>
    var refs: map<string, Hash>
    var peeled: map<string, Hash>
    var commits: set<Hash>
    var calm: bool

    function Advertised(): Advertisement
      reads this
    {
      Advertisement(head, refs, peeled)
    }

    /** An advertisement of nothing is an error of its own, even when a full hash is asked for. */
    function Resolved(ref: string): Option<Hash>
      reads this
    {
      if refs == map[] then None else Resolve(Advertised(), ref)
    }

    /** A branch can be created at a reference that resolves, and to a commit the server holds: a full hash
        resolves to itself whether or not the server has ever heard of it. */
    predicate CanStart(branch: string, fromRef: string)
      reads this
    {
      && fromRef != "" && Resolved(fromRef).Some?
      && (BranchRef(branch) in refs || Resolved(fromRef).value in commits)
    }

    constructor (adv: Advertisement, commits: set<Hash>)
      ensures Advertised() == adv && this.commits == commits && !calm
    {
      head, refs, peeled, this.commits, calm := adv.head, adv.refs, adv.peeled, commits, false;
    }

    ghost predicate Grew(before: map<string, Hash>)
      reads this
    {
      forall n <- before :: n in refs && refs[n] == before[n]
    }

    method Call() returns (o: Outcome)
      modifies this
      ensures Grew(old(refs)) && old(commits) <= commits && calm == old(calm)
      ensures calm ==> o == Done && Advertised() == old(Advertised()) && commits == old(commits)
    {
      if calm {
        return Done;
      }
      o := *;
      var newcomer: bool, name: string, hash: Hash, pushed: set<Hash> := *, *, *, *;
      commits := commits + pushed;
      if newcomer && name !in refs {
        refs := refs[name := hash];
      }
    }

    /** ResolveRemoteReference. */
    method ResolveRemoteReference(ref: string) returns (hash: Option<Hash>, r: Reply)
      modifies this
      ensures Grew(old(refs)) && old(commits) <= commits && calm == old(calm)
      ensures r == Ok <==> hash.Some?
      ensures hash.Some? ==> refs != map[] && hash == Resolve(Advertised(), ref)
      ensures calm ==> Advertised() == old(Advertised()) && commits == old(commits)
      ensures calm ==> hash == (if refs == map[] then None else Resolve(Advertised(), ref)) && r != Crashed
    {
      var o := Call();
      if o != Done {
        return None, o.Seen();
      }
      hash := Resolved(ref);
      r := if hash.Some? then Ok else Err;
    }

    /** CreateRemoteBranchViaRefUpdate: resolve, look again, create. `sent` is what the server accepted
        from this call, and `seen` the remote at the moment the start was resolved. Whoever else creates
        references meanwhile, no existing one changes, and the branch starts where it should. */
    method CreateRemoteBranch(branch: string, fromRef: string)
      returns (r: Reply, ghost sent: Option<Hash>, ghost seen: Advertisement)
      modifies this
      ensures sent.Some? ==> fromRef != "" && Resolve(seen, fromRef) == sent && sent.value in commits
      ensures (forall n <- old(refs) :: n in seen.refs && seen.refs[n] == old(refs)[n]) && Grew(seen.refs)
      ensures Grew(old(refs)) && calm == old(calm)
      ensures r == Ok ==> BranchRef(branch) in refs
      ensures sent.Some? ==> BranchRef(branch) !in old(refs) && BranchRef(branch) in refs
      ensures sent.Some? ==> refs[BranchRef(branch)] == sent.value
      ensures calm ==>
        var start := old(Resolve(Advertised(), fromRef));
        && head == old(head) && peeled == old(peeled) && commits == old(commits)
        && (r == Ok <==>
              && fromRef != "" && old(refs) != map[] && start.Some?
              && (BranchRef(branch) in old(refs) || start.value in commits))
        && (r == Ok <==> old(CanStart(branch, fromRef))) && r != Crashed
        && refs == if r == Ok && BranchRef(branch) !in old(refs) then old(refs)[BranchRef(branch) := start.value]
                   else old(refs)
    {
      sent, seen := None, Advertised();
      if fromRef == "" {
        return Err, sent, seen;
      }
      var hash;
      hash, r := ResolveRemoteReference(fromRef);
      seen := Advertised();
      if r != Ok {
        return;
      }
      var o := Call();
      if o != Done {
        return o.Seen(), sent, seen;
      }
      if BranchRef(branch) in refs {
        return Ok, sent, seen;
      }
      o := Call();
      if BranchRef(branch) in refs || hash.value !in commits {
        return if o.Seen() == Crashed then Crashed else Err, sent, seen; // somebody was faster, or no such commit
      }
      if o.TookEffect() {
        refs := ReceiveCreate(refs, commits, BranchRef(branch), hash.value);
        sent := hash;
      }
      r := o.Seen();
    }
  }

  /** A hash the server does not hold passes every check but the last: it resolves, and no branch can be
      created from it as long as nobody pushes it. */
  lemma UnknownHashResolves(remote: Remote, branch: string, hash: string)
    requires IsFullHash(hash) && remote.refs != map[] && Lower(hash) !in remote.commits
    requires BranchRef(hash) !in remote.refs && TagRef(hash) !in remote.refs && TagRef(hash) !in remote.peeled
    ensures remote.Resolved(hash) == Some(Lower(hash))
    ensures remote.CanStart(branch, hash) <==> BranchRef(branch) in remote.refs
  {
    ResolveIsExact(remote.Advertised(), hash);
  }
}
