/**
 The scan of a released file for forbidden text, read in pieces of any size:
 each piece is scanned with the end of what came before it.
 */
module StreamScan {
  import opened Bytes

  const OVERLAP: nat := 4096

  function LowerByte(b: byte): byte {
    if 'A' as int <= b as int <= 'Z' as int then b + 32 else b
  }

  /** `bytes.lower`. */
  function Lower(data: seq<byte>): (lowered: seq<byte>)
    ensures |lowered| == |data| && forall k :: 0 <= k < |data| ==> lowered[k] == LowerByte(data[k])
  {
    seq(|data|, k requires 0 <= k < |data| => LowerByte(data[k]))
  }

  predicate MatchesAt(data: seq<byte>, literal: seq<byte>, p: int) {
    0 <= p <= |data| - |literal| && forall k :: 0 <= k < |literal| ==> data[p + k] == literal[k]
  }

  /** `literal in data`. */
  predicate Contains(data: seq<byte>, literal: seq<byte>) {
    exists p :: 0 <= p <= |data| - |literal| && MatchesAt(data, literal, p)
  }

  /** `inspect_public_text`, as far as literals go: one of them occurs, whatever the case of its letters. */
  predicate Forbidden(data: seq<byte>, literals: seq<seq<byte>>) {
    exists literal <- literals :: Contains(Lower(data), literal)
  }

  /** `found` is the byte `wanted` of a literal, or the capital of that letter. */
  predicate Reads(found: byte, wanted: byte) {
    if 0x41 <= found as int <= 0x5a then wanted as int == found as int + 0x20 else wanted == found
  }

  /** `literal` stands at `p` of `data`, with capitals read as small letters. */
  predicate StandsAt(data: seq<byte>, literal: seq<byte>, p: int) {
    0 <= p <= |data| - |literal| && forall k :: 0 <= k < |literal| ==> Reads(data[p + k], literal[k])
  }

  lemma MatchesAsRead(data: seq<byte>, literal: seq<byte>, p: int)
    ensures MatchesAt(Lower(data), literal, p) <==> StandsAt(data, literal, p)
  {}

  /** What is looked for is a literal, anywhere, byte for byte. */
  lemma ForbiddenIs(data: seq<byte>, literals: seq<seq<byte>>)
    ensures Forbidden(data, literals) <==> exists literal, p :: literal in literals && StandsAt(data, literal, p)
  {
    forall literal, p ensures MatchesAt(Lower(data), literal, p) <==> StandsAt(data, literal, p) {
      MatchesAsRead(data, literal, p);
    }
    hide Lower;
    if literal, p :| literal in literals && StandsAt(data, literal, p) {
      assert MatchesAt(Lower(data), literal, p) && Contains(Lower(data), literal);
    }
    if Forbidden(data, literals) {
      var literal :| literal in literals && Contains(Lower(data), literal);
      var p :| 0 <= p <= |Lower(data)| - |literal| && MatchesAt(Lower(data), literal, p);
      assert StandsAt(data, literal, p);
    }
  }

  /** `data[-OVERLAP:]`. */
  function Tail(data: seq<byte>): seq<byte> {
    if |data| <= OVERLAP then data else data[|data| - OVERLAP..]
  }

  /** The whole file the pieces give: they end with the first empty one. */
  function FileOf(pieces: seq<seq<byte>>): seq<byte> {
    if pieces == [] || pieces[0] == [] then [] else pieces[0] + FileOf(pieces[1..])
  }

  /** What has been read when the next read is `chunk`. */
  lemma {:induction false} FileOnward(before: seq<byte>, pieces: seq<seq<byte>>)
    requires pieces != [] && pieces[0] != []
    ensures before + pieces[0] + FileOf(pieces[1..]) == before + FileOf(pieces)
  {}

  /** The carried tail with a chunk holds each occurrence that ends in the chunk, and no other than the file's. */
  lemma WindowHolds(seen: seq<byte>, chunk: seq<byte>, literal: seq<byte>)
    requires 0 < |literal| <= OVERLAP + 1
    ensures Contains(Lower(seen + chunk), literal) <==>
            Contains(Lower(seen), literal) || Contains(Lower(Tail(seen) + chunk), literal)
  {
    var all, window := Lower(seen + chunk), Lower(Tail(seen) + chunk);
    var cut := |seen| - |Tail(seen)|;
    assert forall k :: 0 <= k < |window| ==> window[k] == all[k + cut];
    assert forall k :: 0 <= k < |seen| ==> Lower(seen)[k] == all[k];
    hide Lower, Tail;
    if Contains(all, literal) {
      var p :| 0 <= p <= |all| - |literal| && MatchesAt(all, literal, p);
      if p + |literal| <= |seen| {
        assert MatchesAt(Lower(seen), literal, p);
      } else {
        assert MatchesAt(window, literal, p - cut);
      }
    }
    if Contains(Lower(seen), literal) {
      var p :| 0 <= p <= |seen| - |literal| && MatchesAt(Lower(seen), literal, p);
      assert MatchesAt(all, literal, p);
    }
    if Contains(window, literal) {
      var p :| 0 <= p <= |window| - |literal| && MatchesAt(window, literal, p);
      assert MatchesAt(all, literal, p + cut);
    }
  }

  lemma TailOfMore(seen: seq<byte>, chunk: seq<byte>)
    ensures Tail(Tail(seen) + chunk) == Tail(seen + chunk)
  {}

  lemma WindowForbids(seen: seq<byte>, chunk: seq<byte>, literals: seq<seq<byte>>)
    requires forall literal <- literals :: 0 < |literal| <= OVERLAP + 1
    ensures Forbidden(seen + chunk, literals) <==> Forbidden(seen, literals) || Forbidden(Tail(seen) + chunk, literals)
  {
    forall literal <- literals
      ensures Contains(Lower(seen + chunk), literal) <==>
              Contains(Lower(seen), literal) || Contains(Lower(Tail(seen) + chunk), literal) {
      WindowHolds(seen, chunk, literal);
    }
  }

  /** What is forbidden stays so, whatever is read after it. */
  lemma StaysForbidden(seen: seq<byte>, rest: seq<byte>, literals: seq<seq<byte>>)
    requires Forbidden(seen, literals)
    ensures Forbidden(seen + rest, literals)
  {
    var literal :| literal in literals && Contains(Lower(seen), literal);
    var p :| 0 <= p <= |seen| - |literal| && MatchesAt(Lower(seen), literal, p);
    assert MatchesAt(Lower(seen + rest), literal, p);
  }

  /** A scan with `tail` carried over refuses one of the windows to come. */
  predicate Refuses(tail: seq<byte>, pieces: seq<seq<byte>>, literals: seq<seq<byte>>)
    decreases |pieces|
  {
    pieces != [] && pieces[0] != [] &&
    var data := tail + pieces[0];
    Forbidden(data, literals) || Refuses(Tail(data), pieces[1..], literals)
  }

  /** `inspect_public_stream`. */
  method InspectStream(pieces: seq<seq<byte>>, literals: seq<seq<byte>>) returns (refused: bool)
    ensures refused <==> Refuses([], pieces, literals)
  {
    hide Forbidden, Tail;
    var tail: seq<byte> := [];
    var i := 0;
    while i < |pieces| && pieces[i] != []
      invariant 0 <= i <= |pieces|
      invariant Refuses(tail, pieces[i..], literals) <==> Refuses([], pieces, literals)
    {
      var data := tail + pieces[i];
      assert pieces[i..][1..] == pieces[i + 1..];
      if Forbidden(data, literals) {
        return true;
      }
      tail := Tail(data);
      i := i + 1;
    }
    return false;
  }

  lemma {:induction false} RefusesOnward(seen: seq<byte>, pieces: seq<seq<byte>>, literals: seq<seq<byte>>)
    requires forall literal <- literals :: 0 < |literal| <= OVERLAP + 1
    ensures Forbidden(seen, literals) || Refuses(Tail(seen), pieces, literals) <==>
            Forbidden(seen + FileOf(pieces), literals)
    decreases |pieces|
  {
    if pieces == [] || pieces[0] == [] {
      assert seen + [] == seen;
    } else {
      WindowForbids(seen, pieces[0], literals);
      FileOnward(seen, pieces);
      TailOfMore(seen, pieces[0]);
      RefusesOnward(seen + pieces[0], pieces[1..], literals);
      if Forbidden(seen, literals) {
        StaysForbidden(seen, FileOf(pieces), literals);
      }
    }
  }

  /**
   With literals no longer than OVERLAP + 1, the scan refuses a file
   exactly when one of them occurs in it, whatever the sizes of its pieces.
   */
  lemma RefusesExactly(pieces: seq<seq<byte>>, literals: seq<seq<byte>>)
    requires forall literal <- literals :: 0 < |literal| <= OVERLAP + 1
    ensures Refuses([], pieces, literals) <==> Forbidden(FileOf(pieces), literals)
  {
    RefusesOnward([], pieces, literals);
    assert [] + FileOf(pieces) == FileOf(pieces);
  }

  /** The bound is exact: a longer literal that is a whole file is missed when its last byte is read apart. */
  lemma LongerIsMissed(literal: seq<byte>)
    requires OVERLAP + 1 < |literal| && Lower(literal) == literal
    ensures var pieces := [literal[..|literal| - 1], literal[|literal| - 1..]];
            Forbidden(FileOf(pieces), [literal]) && !Refuses([], pieces, [literal])
  {
    var first, second := literal[..|literal| - 1], literal[|literal| - 1..];
    var pieces := [first, second];
    assert pieces[1..] == [second] && [second][1..] == [];
    assert FileOf([second]) == second + FileOf([]);
    assert FileOf(pieces) == literal;
    assert literal in [literal] && MatchesAt(Lower(literal), literal, 0);
    assert [] + first == first;
    assert !Forbidden(first, [literal]);
    var window := Tail(first) + second;
    assert |window| == OVERLAP + 1 && !Forbidden(window, [literal]);
    assert !Refuses(Tail(window), [], [literal]);
    assert !Refuses(Tail(first), [second], [literal]);
  }
}
