/** Decoding the key codes queued during one frame into paddle intents and
    the quit request (the inner while loop of main.c). The queue is the
    sequence of values successive calls of read_key give; once it is used up
    every further call gives -1, read_key's "nothing queued". */
module Keys {

  const NoKey: int := -1
  const Esc: int := 27
  const KeyW: int := 'w' as int
  const KeyS: int := 's' as int
  const KeyQ: int := 'q' as int
  const KeyBracket: int := '[' as int
  const KeyA: int := 'A' as int
  const KeyB: int := 'B' as int

  /** The four move flags of one frame: left paddle (w, s) and right paddle (arrows). */
  datatype Intents = Intents(up: bool, down: bool, up2: bool, down2: bool) {
    function Or(other: Intents): Intents {
      Intents(up || other.up, down || other.down, up2 || other.up2, down2 || other.down2)
    }
  }

  const NoIntents: Intents := Intents(false, false, false, false)

  /** The flags set and whether a top-level 'q' was read. */
  datatype Decoded = Decoded(intents: Intents, quit: bool)

  /** The value the i-th call of read_key gives. */
  function ReadAt(keys: seq<int>, i: nat): int {
    if i < |keys| then keys[i] else NoKey
  }

  /** The queue after n reads. */
  function Drop(keys: seq<int>, n: nat): (r: seq<int>)
    ensures |r| == if n <= |keys| then |keys| - n else 0
  {
    if n <= |keys| then keys[n..] else []
  }

  /** Reading from the queue left after n reads is reading further on. */
  lemma DropRead(keys: seq<int>, n: nat, i: nat)
    ensures ReadAt(Drop(keys, n), i) == ReadAt(keys, n + i)
  {
  }

  lemma DropDrop(keys: seq<int>, n: nat, m: nat)
    ensures Drop(Drop(keys, n), m) == Drop(keys, n + m)
  {
  }

  /** The flags a single top-level code sets. */
  function KeyIntents(k: int): Intents {
    Intents(k == KeyW, k == KeyS, false, false)
  }

  /** The flags an escape followed by k2, k3 sets. */
  function EscIntents(k2: int, k3: int): Intents {
    Intents(false, false, k2 == KeyBracket && k3 == KeyA, k2 == KeyBracket && k3 == KeyB)
  }

  /** What draining the queue yields, token by token: decoding stops at the
      first -1 (or the end) and at the first top-level 'q'; an escape takes the
      next two codes, whatever they are, as its operands. */
  function Decode(keys: seq<int>): Decoded
    decreases |keys|
  {
    if keys == [] || keys[0] == NoKey then Decoded(NoIntents, false)
    else if keys[0] == KeyQ then Decoded(NoIntents, true)
    else if keys[0] == Esc then
      var rest := Decode(Drop(keys, 3));
      Decoded(EscIntents(ReadAt(keys, 1), ReadAt(keys, 2)).Or(rest.intents), rest.quit)
    else
      var rest := Decode(keys[1..]);
      Decoded(KeyIntents(keys[0]).Or(rest.intents), rest.quit)
  }

  /** The loop of main.c over the queue: returns the four flags and whether 'q' was read. */
  method DrainKeys(keys: seq<int>) returns (intents: Intents, quit: bool)
    ensures Decoded(intents, quit) == Decode(keys)
  {
    var up, down, up2, down2 := false, false, false, false;
    var pos: nat := 0;
    quit := false;
    ghost var goal := Decode(keys);
    assert Drop(keys, 0) == keys;
    while true
      invariant pos <= |keys| + 2
      invariant Intents(up, down, up2, down2).Or(Decode(Drop(keys, pos)).intents) == goal.intents
      invariant Decode(Drop(keys, pos)).quit == goal.quit
      decreases |keys| + 2 - pos
    {
      ghost var at := pos;
      ghost var before := Intents(up, down, up2, down2);
      DecodeStop(keys, pos);
      var k := ReadAt(keys, pos);
      pos := pos + 1;
      if k == NoKey {
        break;
      }
      if k == KeyW { up := true; }
      if k == KeyS { down := true; }
      if k == Esc {
        var k2 := ReadAt(keys, pos);
        pos := pos + 1;
        var k3 := ReadAt(keys, pos);
        pos := pos + 1;
        if k2 == KeyBracket && k3 == KeyA { up2 := true; }
        if k2 == KeyBracket && k3 == KeyB { down2 := true; }
      }
      if k == KeyQ {
        quit := true;
        break;
      }
      DecodeToken(keys, at);
      assert Intents(up, down, up2, down2) == before.Or(TokenAt(keys, at));
      OrAssoc(before, TokenAt(keys, at), Decode(Drop(keys, pos)).intents);
    }
    intents := Intents(up, down, up2, down2);
  }

  lemma OrAssoc(a: Intents, b: Intents, c: Intents)
    ensures a.Or(b).Or(c) == a.Or(b.Or(c))
  {
  }

  /** The number of codes the token read at position pos takes. */
  function Width(keys: seq<int>, pos: nat): nat {
    if ReadAt(keys, pos) == Esc then 3 else 1
  }

  /** The flags the token read at position pos sets. */
  function TokenAt(keys: seq<int>, pos: nat): Intents {
    if ReadAt(keys, pos) == Esc then EscIntents(ReadAt(keys, pos + 1), ReadAt(keys, pos + 2))
    else KeyIntents(ReadAt(keys, pos))
  }

  /** Decoding from a -1 or a 'q' stops there. */
  lemma DecodeStop(keys: seq<int>, pos: nat)
    ensures ReadAt(keys, pos) == NoKey ==> Decode(Drop(keys, pos)) == Decoded(NoIntents, false)
    ensures ReadAt(keys, pos) == KeyQ ==> Decode(Drop(keys, pos)) == Decoded(NoIntents, true)
  {
    DropRead(keys, pos, 0);
  }

  /** Decoding from any other token: its flags, then decoding after it. */
  lemma DecodeToken(keys: seq<int>, pos: nat)
    requires ReadAt(keys, pos) != NoKey && ReadAt(keys, pos) != KeyQ
    ensures var next := Decode(Drop(keys, pos + Width(keys, pos)));
      Decode(Drop(keys, pos)) == Decoded(TokenAt(keys, pos).Or(next.intents), next.quit)
  {
    DropRead(keys, pos, 0);
    DropRead(keys, pos, 1);
    DropRead(keys, pos, 2);
    DropDrop(keys, pos, 3);
    DropDrop(keys, pos, 1);
  }

  // ---------------------------------------------------------------------------
  // Properties

  /** A queue made of whole tokens none of which is -1 or a top-level 'q'. */
  predicate Plain(p: seq<int>)
    decreases |p|
  {
    p == [] ||
    (p[0] != NoKey && p[0] != KeyQ &&
     if p[0] == Esc then |p| >= 3 && Plain(p[3..]) else Plain(p[1..]))
  }

  /** A plain prefix contributes its flags and lets decoding go on to the rest. */
  lemma {:induction false} DecodeConcat(p: seq<int>, s: seq<int>)
    requires Plain(p)
    ensures Decode(p + s) == Decoded(Decode(p).intents.Or(Decode(s).intents), Decode(s).quit)
    ensures !Decode(p).quit
    decreases |p|
  {
    if p == [] {
      assert p + s == s;
    } else if p[0] == Esc {
      assert (p + s)[0] == Esc;
      assert Drop(p + s, 3) == p[3..] + s;
      assert Drop(p, 3) == p[3..];
      assert ReadAt(p + s, 1) == ReadAt(p, 1) && ReadAt(p + s, 2) == ReadAt(p, 2);
      DecodeConcat(p[3..], s);
    } else {
      assert (p + s)[0] == p[0];
      assert (p + s)[1..] == p[1..] + s;
      DecodeConcat(p[1..], s);
    }
  }

  /** An escape always consumes the next two codes: "[A" and "[B" set the right
      paddle's flags, any other pair sets nothing, and a 'q' or 'w' among them
      neither quits nor moves the left paddle. */
  lemma EscapeTakesTwo(k2: int, k3: int, s: seq<int>)
    ensures var r := Decode([Esc, k2, k3] + s);
      r.quit == Decode(s).quit &&
      r.intents.up == Decode(s).intents.up &&
      r.intents.down == Decode(s).intents.down &&
      r.intents.up2 == ((k2 == KeyBracket && k3 == KeyA) || Decode(s).intents.up2) &&
      r.intents.down2 == ((k2 == KeyBracket && k3 == KeyB) || Decode(s).intents.down2)
  {
    assert Drop([Esc, k2, k3] + s, 3) == s;
  }

  /** The first top-level 'q' ends decoding with the quit request; whatever follows is ignored. */
  lemma QuitEndsDecoding(p: seq<int>, s: seq<int>)
    requires Plain(p)
    ensures Decode(p + [KeyQ] + s) == Decoded(Decode(p).intents, true)
  {
    assert p + [KeyQ] + s == p + ([KeyQ] + s);
    DecodeConcat(p, [KeyQ] + s);
  }

  /** A -1 ends decoding without quitting; whatever follows is ignored. */
  lemma StopEndsDecoding(p: seq<int>, s: seq<int>)
    requires Plain(p)
    ensures Decode(p + [NoKey] + s) == Decoded(Decode(p).intents, false)
    ensures Decode(p) == Decoded(Decode(p).intents, false)
  {
    assert p + [NoKey] + s == p + ([NoKey] + s);
    DecodeConcat(p, [NoKey] + s);
  }

  /** The move keys: w, s and the two arrow sequences. */
  predicate MoveToken(t: seq<int>) {
    t == [KeyW] || t == [KeyS] || t == [Esc, KeyBracket, KeyA] || t == [Esc, KeyBracket, KeyB]
  }

  lemma MoveTokenPlain(t: seq<int>)
    requires MoveToken(t)
    ensures Plain(t)
  {
    if |t| == 1 {
      assert t[1..] == [];
    } else {
      assert t[3..] == [];
    }
  }

  /** The flags are booleans: a move key pressed again later in the same frame
      has no further effect. */
  lemma RepeatedPressIdempotent(t: seq<int>, p: seq<int>, s: seq<int>)
    requires MoveToken(t) && Plain(p)
    ensures Decode(t + p + t + s) == Decode(p + t + s)
  {
    MoveTokenPlain(t);
    var ts := t + s;
    var pts := p + ts;
    assert t + p + t + s == t + pts;
    assert p + t + s == pts;
    var dt, ds, dp := Decode(t).intents, Decode(s), Decode(p).intents;
    DecodeConcat(t, s);
    assert Decode(ts) == Decoded(dt.Or(ds.intents), ds.quit);
    DecodeConcat(p, ts);
    assert Decode(pts) == Decoded(dp.Or(dt.Or(ds.intents)), ds.quit);
    DecodeConcat(t, pts);
    assert Decode(t + pts) == Decoded(dt.Or(dp.Or(dt.Or(ds.intents))), ds.quit);
  }
}
