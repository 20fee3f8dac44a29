/**
 * Capture of the IR instructions emitted while a function is compiled, and
 * the numbering of the captured instructions into IR source lines
 * (numba/annotate/ir_capture.py).
 *
 * A source position is modelled as an `int`; the instruction type `I` is left
 * abstract, and its text (`str(instr)`) is the parameter `toText`.
 */
module IrCapture {
  import opened Wrappers

  /** A source position under which emitted instructions are recorded. */
  type Position = int

  /**
   * What the capturing builder raises: capturing before any position was set
   * (`self.pos` is unbound), or asking for an attribute the wrapped builder
   * does not have.
   */
  datatype CaptureError = PositionUnset | MissingAttribute(name: string)

  /** What the wrapped builder holds under an attribute name. */
  datatype BuilderMember<V> = Field(value: V) | Operation

  /** What the capturing builder hands back for that attribute. */
  datatype Forwarded<V> = Value(value: V) | Emitter

  /**
   * A builder wrapper that records every result of a forwarded builder call
   * under the current source position.
   */
  class LlvmIrBuilder<V, I> {
    /** The wrapped builder's attributes, by name. */
    const builder: map<string, BuilderMember<V>>
    var pos: Option<Position>
    var captured: map<Position, seq<I>>

    /** Entries are only ever created by an append, so none is empty. */
    ghost predicate Valid()
      reads this
    {
      forall p :: p in captured ==> captured[p] != []
    }

    /** The instructions captured under `p` so far (a `defaultdict(list)` read). */
    function Captured(p: Position): seq<I>
      reads this
    {
      if p in captured then captured[p] else []
    }

    constructor (builder: map<string, BuilderMember<V>>)
      ensures this.builder == builder
      ensures pos == None && captured == map[]
      ensures Valid()
    {
      this.builder := builder;
      pos := None;
      captured := map[];
    }

    /** Every later capture is recorded under `p`. */
    method UpdatePos(p: Position)
      modifies this`pos
      ensures pos == Some(p)
    {
      pos := Some(p);
    }

    /**
     * Attribute access on the wrapper: a non-callable builder attribute is
     * handed back as it is, a callable one becomes an emitter (see `Emit`),
     * and a name the builder lacks raises. Nothing is captured either way.
     */
    method Lookup(name: string) returns (r: Result<Forwarded<V>, CaptureError>)
      ensures name !in builder ==> r == Err(MissingAttribute(name))
      ensures name in builder && builder[name].Field? ==> r == Ok(Value(builder[name].value))
      ensures name in builder && builder[name].Operation? ==> r == Ok(Emitter)
    {
      if name !in builder {
        return Err(MissingAttribute(name));
      }
      match builder[name]
      case Field(v) => r := Ok(Value(v));
      case Operation => r := Ok(Emitter);
    }

    /**
     * Calling an emitter: `result` is what the wrapped builder returned. It is
     * appended to the list of the current position and returned unchanged;
     * every other position keeps its list.
     */
    method Emit(result: I) returns (r: Result<I, CaptureError>)
      requires Valid()
      modifies this`captured
      ensures Valid()
      ensures pos.Some? ==> r == Ok(result)
      ensures pos.Some? ==> Captured(pos.value) == old(Captured(pos.value)) + [result]
      ensures pos.Some? ==> forall q :: q != pos.value ==> Captured(q) == old(Captured(q))
      ensures pos.Some? ==> captured.Keys == old(captured.Keys) + {pos.value}
      ensures pos.None? ==> r == Err(PositionUnset) && captured == old(captured)
    {
      if pos.None? {
        return Err(PositionUnset);
      }
      captured := captured[pos.value := Captured(pos.value) + [result]];
      r := Ok(result);
    }
  }

  /** The IR text, one entry per IR line number; no annotations are attached. */
  datatype Source = Source(linemap: map<nat, string>, annotations: seq<string>)

  /** IR line numbers per source position, together with the IR text. */
  datatype SourceIntermediate = SourceIntermediate(linenomap: map<Position, seq<nat>>, source: Source)

  /** Every position of `keys` has a captured list in `c`. */
  predicate Covers<I>(c: map<Position, seq<I>>, keys: seq<Position>)
  {
    forall i :: 0 <= i < |keys| ==> keys[i] in c
  }

  predicate StrictlyIncreasing(s: seq<int>)
  {
    forall i, j :: 0 <= i < j < |s| ==> s[i] < s[j]
  }

  /** A set without elements is the empty set. */
  lemma NoElementEmpty(s: set<Position>)
    requires forall y :: y !in s
    ensures s == {}
  {
    assert forall y :: y in s <==> y in {};
  }

  lemma EmptyOrElement(s: set<Position>)
    ensures s == {} || exists y :: y in s
  {
    if forall y :: y !in s {
      NoElementEmpty(s);
    }
  }

  /** A non-empty finite set of positions has a least element. */
  lemma {:induction false} LeastPosition(s: set<Position>) returns (m: Position)
    requires s != {}
    ensures m in s && forall q :: q in s ==> m <= q
    decreases |s|
  {
    EmptyOrElement(s);
    var x :| x in s;
    var rest := s - {x};
    if rest == {} {
      m := x;
      forall q | q in s
        ensures m <= q
      {
        assert q !in rest;
      }
    } else {
      var least := LeastPosition(rest);
      m := if x < least then x else least;
      forall q | q in s
        ensures m <= q
      {
        if q != x {
          assert q in rest;
        }
      }
    }
  }

  /** `m` is the least element of `s`. */
  predicate IsLeast(m: Position, s: set<Position>)
  {
    m in s && forall q :: q in s ==> m <= q
  }

  lemma MinimumExists(s: set<Position>)
    requires s != {}
    ensures exists m :: IsLeast(m, s)
  {
    var m := LeastPosition(s);
    assert IsLeast(m, s);
  }

  /** The positions of `s` in ascending order (Python's `sorted`). */
  function SortedPositions(s: set<Position>): seq<Position>
    decreases |s|
  {
    if s == {} then []
    else
      MinimumExists(s);
      var m :| IsLeast(m, s);
      [m] + SortedPositions(s - {m})
  }

  /** `SortedPositions(s)` lists every element of `s`, and nothing else, in ascending order. */
  lemma {:induction false} SortedPositionsSorted(s: set<Position>)
    ensures StrictlyIncreasing(SortedPositions(s))
    ensures forall p :: p in SortedPositions(s) <==> p in s
    ensures forall i :: 0 <= i < |SortedPositions(s)| ==> SortedPositions(s)[i] in s
    decreases |s|
  {
    if s != {} {
      var keys := SortedPositions(s);
      var m := keys[0];
      var rest := SortedPositions(s - {m});
      assert IsLeast(m, s) && keys == [m] + rest;
      SortedPositionsSorted(s - {m});
      assert forall q :: q in rest ==> m < q;
      forall i | 0 <= i < |keys|
        ensures keys[i] in s
      {
        if i > 0 {
          assert keys[i] == rest[i - 1];
        }
      }
    }
  }

  lemma SortedPositionsCover<I>(c: map<Position, seq<I>>)
    ensures Covers(c, SortedPositions(c.Keys))
  {
    SortedPositionsSorted(c.Keys);
  }

  /** There is one ascending enumeration of a set: `SortedPositions` is it. */
  lemma {:induction false} SortedPositionsUnique(s: set<Position>, keys: seq<Position>)
    requires StrictlyIncreasing(keys)
    requires forall p :: p in keys <==> p in s
    ensures keys == SortedPositions(s)
  {
    SortedPositionsSorted(s);
    AscendingUnique(keys, SortedPositions(s));
  }

  lemma {:induction false} AscendingUnique(a: seq<Position>, b: seq<Position>)
    requires StrictlyIncreasing(a) && StrictlyIncreasing(b)
    requires forall p :: p in a <==> p in b
    ensures a == b
  {
    assert a != [] ==> a[0] in a;
    assert b != [] ==> b[0] in b;
    if a != [] {
      assert a[0] == b[0] by {
        assert a[0] in a && b[0] in b;
        var k :| 0 <= k < |b| && b[k] == a[0];
        var l :| 0 <= l < |a| && a[l] == b[0];
        assert a[0] <= a[l];
        assert b[0] <= b[k];
      }
      forall p
        ensures p in a[1..] <==> p in b[1..]
      {
        if p in a[1..] {
          var k :| 1 <= k < |a| && a[k] == p;
          assert a[0] < a[k];
          assert p in a;
        }
        if p in b[1..] {
          var k :| 1 <= k < |b| && b[k] == p;
          assert b[0] < b[k];
          assert p in b;
        }
      }
      AscendingUnique(a[1..], b[1..]);
      assert a == [a[0]] + a[1..] && b == [b[0]] + b[1..];
    }
  }

  /** The captured instructions of `keys`, position after position. */
  function Flatten<I>(c: map<Position, seq<I>>, keys: seq<Position>): seq<I>
    requires Covers(c, keys)
  {
    if keys == [] then []
    else Flatten(c, keys[..|keys| - 1]) + c[keys[|keys| - 1]]
  }

  /** The `n` consecutive line numbers starting at `first`. */
  function Range(first: nat, n: nat): seq<nat>
  {
    if n == 0 then [] else Range(first, n - 1) + [first + n - 1]
  }

  lemma {:induction false} RangeAt(first: nat, n: nat)
    ensures |Range(first, n)| == n
    ensures forall k :: 0 <= k < n ==> Range(first, n)[k] == first + k
  {
    if n > 0 {
      RangeAt(first, n - 1);
    }
  }

  /** Line `k` (from 1) holds the text of the `k`-th instruction of `s`. */
  function LineMap<I>(s: seq<I>, toText: I -> string): map<nat, string>
  {
    if s == [] then map[]
    else LineMap(s[..|s| - 1], toText)[|s| := toText(s[|s| - 1])]
  }

  /** The IR lines are numbered 1..|s|, line `k` holding the text of `s[k - 1]`. */
  lemma {:induction false} LineMapNumbering<I>(s: seq<I>, toText: I -> string)
    ensures forall k :: k in LineMap(s, toText) <==> 1 <= k <= |s|
    ensures forall k :: 1 <= k <= |s| ==> LineMap(s, toText)[k] == toText(s[k - 1])
  {
    if s != [] {
      var init := s[..|s| - 1];
      LineMapNumbering(init, toText);
      assert forall k :: 0 <= k < |init| ==> init[k] == s[k];
    }
  }

  /** The line numbers given to each position of `keys` with a non-empty list. */
  function LineNumbers<I>(c: map<Position, seq<I>>, keys: seq<Position>): map<Position, seq<nat>>
    requires Covers(c, keys)
  {
    if keys == [] then map[]
    else
      var init, p := keys[..|keys| - 1], keys[|keys| - 1];
      var before := LineNumbers(c, init);
      if c[p] == [] then before else before[p := Range(|Flatten(c, init)| + 1, |c[p]|)]
  }

  /** All captured instructions, ordered by position and, within one, by capture. */
  function Instructions<I>(c: map<Position, seq<I>>): seq<I>
  {
    SortedPositionsCover(c);
    Flatten(c, SortedPositions(c.Keys))
  }

  /** What `get_annotations` is to produce from the captured instructions `c`. */
  function Annotations<I>(c: map<Position, seq<I>>, toText: I -> string): SourceIntermediate
  {
    SortedPositionsCover(c);
    SourceIntermediate(LineNumbers(c, SortedPositions(c.Keys)), Source(LineMap(Instructions(c), toText), []))
  }

  /**
   * Numbers the captured instructions 1, 2, ... walking the positions in
   * ascending order, recording each number under its position and its text
   * under the number.
   */
  method GetAnnotations<V, I>(irBuilder: LlvmIrBuilder<V, I>, toText: I -> string) returns (r: SourceIntermediate)
    ensures r == Annotations(irBuilder.captured, toText)
  {
    var captured := irBuilder.captured;
    var positions := SortedPositions(captured.Keys);
    SortedPositionsCover(captured);
    var linenomap: map<Position, seq<nat>> := map[];
    var linemap: map<nat, string> := map[];
    var irLineno: nat := 1;
    for i := 0 to |positions|
      invariant irLineno == |Flatten(captured, positions[..i])| + 1
      invariant linemap == LineMap(Flatten(captured, positions[..i]), toText)
      invariant linenomap == LineNumbers(captured, positions[..i])
    {
      var pos := positions[i];
      var instrs := captured[pos];
      ghost var done := Flatten(captured, positions[..i]);
      ghost var before := linenomap;
      ghost var emitted := done;
      LineNumbersDomain(captured, positions[..i]);
      assert pos !in positions[..i] by {
        SortedPositionsSorted(captured.Keys);
        assert forall k :: 0 <= k < i ==> positions[..i][k] < pos;
      }
      for j := 0 to |instrs|
        invariant irLineno == |done| + j + 1
        invariant emitted == done + instrs[..j]
        invariant linemap == LineMap(emitted, toText)
        invariant j == 0 ==> linenomap == before
        invariant j > 0 ==> linenomap == before[pos := Range(|done| + 1, j)]
      {
        NumberUnderPosition(linenomap, before, pos, |done| + 1, j);
        linenomap := linenomap[pos := (if pos in linenomap then linenomap[pos] else []) + [irLineno]];
        NumberInstruction(linemap, emitted, instrs[j], irLineno, toText);
        linemap := linemap[irLineno := toText(instrs[j])];
        irLineno := irLineno + 1;
        ExtendByOne(done, instrs, j);
        emitted := emitted + [instrs[j]];
      }
      assert instrs[..|instrs|] == instrs;
      FlattenStep(captured, positions, i);
      LineNumbersStep(captured, positions, i);
    }
    assert positions[..|positions|] == positions;
    r := SourceIntermediate(linenomap, Source(linemap, []));
  }

  lemma NumberInstruction<I>(linemap: map<nat, string>, s: seq<I>, x: I, lineno: nat, toText: I -> string)
    requires linemap == LineMap(s, toText) && lineno == |s| + 1
    ensures linemap[lineno := toText(x)] == LineMap(s + [x], toText)
  {
  }

  lemma NumberUnderPosition(linenomap: map<Position, seq<nat>>, before: map<Position, seq<nat>>, pos: Position, first: nat, j: nat)
    requires pos !in before
    requires j == 0 ==> linenomap == before
    requires j > 0 ==> linenomap == before[pos := Range(first, j)]
    ensures linenomap[pos := (if pos in linenomap then linenomap[pos] else []) + [first + j]] == before[pos := Range(first, j + 1)]
  {
  }

  lemma ExtendByOne<I>(done: seq<I>, instrs: seq<I>, j: nat)
    requires j < |instrs|
    ensures done + instrs[..j + 1] == (done + instrs[..j]) + [instrs[j]]
  {
  }

  /** Numbering one more position extends the numbering of those before it. */
  lemma LineNumbersStep<I>(c: map<Position, seq<I>>, keys: seq<Position>, i: nat)
    requires Covers(c, keys)
    requires i < |keys|
    ensures LineNumbers(c, keys[..i + 1]) ==
      if c[keys[i]] == [] then LineNumbers(c, keys[..i])
      else LineNumbers(c, keys[..i])[keys[i] := Range(|Flatten(c, keys[..i])| + 1, |c[keys[i]]|)]
  {
    assert keys[..i + 1][..i] == keys[..i];
  }

  // ------------------------------------------------------------------
  // Facts about the flattening and the numbering
  // ------------------------------------------------------------------

  lemma {:induction false} LineNumbersDomain<I>(c: map<Position, seq<I>>, keys: seq<Position>)
    requires Covers(c, keys)
    ensures forall p :: p in LineNumbers(c, keys) <==> p in keys && c[p] != []
  {
    if keys != [] {
      var init := keys[..|keys| - 1];
      LineNumbersDomain(c, init);
      assert keys == init + [keys[|keys| - 1]];
    }
  }

  lemma {:induction false} LineNumbersAt<I>(c: map<Position, seq<I>>, keys: seq<Position>, i: nat)
    requires Covers(c, keys)
    requires StrictlyIncreasing(keys)
    requires i < |keys| && c[keys[i]] != []
    ensures keys[i] in LineNumbers(c, keys)
    ensures LineNumbers(c, keys)[keys[i]] == Range(|Flatten(c, keys[..i])| + 1, |c[keys[i]]|)
  {
    var n := |keys| - 1;
    var init := keys[..n];
    if i < n {
      LineNumbersAt(c, init, i);
      assert init[..i] == keys[..i];
      assert keys[i] < keys[n];
    } else {
      assert keys[..i] == init;
    }
  }

  lemma {:induction false} FlattenPrefix<I>(c: map<Position, seq<I>>, keys: seq<Position>, m: nat)
    requires Covers(c, keys)
    requires m <= |keys|
    ensures |Flatten(c, keys[..m])| <= |Flatten(c, keys)|
    ensures Flatten(c, keys)[..|Flatten(c, keys[..m])|] == Flatten(c, keys[..m])
    decreases |keys|
  {
    if m == |keys| {
      assert keys[..m] == keys;
    } else {
      var init := keys[..|keys| - 1];
      FlattenPrefix(c, init, m);
      assert init[..m] == keys[..m];
    }
  }

  lemma FlattenStep<I>(c: map<Position, seq<I>>, keys: seq<Position>, i: nat)
    requires Covers(c, keys)
    requires i < |keys|
    ensures Flatten(c, keys[..i + 1]) == Flatten(c, keys[..i]) + c[keys[i]]
  {
    assert keys[..i + 1][..i] == keys[..i];
  }

  lemma FlattenAt<I>(c: map<Position, seq<I>>, keys: seq<Position>, i: nat, j: nat)
    requires Covers(c, keys)
    requires i < |keys| && j < |c[keys[i]]|
    ensures |Flatten(c, keys[..i])| + j < |Flatten(c, keys)|
    ensures Flatten(c, keys)[|Flatten(c, keys[..i])| + j] == c[keys[i]][j]
  {
    FlattenPrefix(c, keys, i + 1);
    FlattenStep(c, keys, i);
  }

  lemma FlattenMonotone<I>(c: map<Position, seq<I>>, keys: seq<Position>, i: nat, j: nat)
    requires Covers(c, keys)
    requires i <= j <= |keys|
    ensures |Flatten(c, keys[..i])| <= |Flatten(c, keys[..j])|
  {
    FlattenPrefix(c, keys[..j], i);
    assert keys[..j][..i] == keys[..i];
  }

  /** Finds the position (by index) and the capture index of instruction `k`. */
  lemma {:induction false} FlattenLocate<I>(c: map<Position, seq<I>>, keys: seq<Position>, k: nat)
    returns (i: nat, j: nat)
    requires Covers(c, keys)
    requires k < |Flatten(c, keys)|
    ensures i < |keys| && j < |c[keys[i]]|
    ensures k == |Flatten(c, keys[..i])| + j
  {
    var n := |keys| - 1;
    var init := keys[..n];
    if k < |Flatten(c, init)| {
      i, j := FlattenLocate(c, init, k);
      assert init[..i] == keys[..i];
    } else {
      i, j := n, k - |Flatten(c, init)|;
      assert keys[..i] == init;
    }
  }

  /** The index at which `p` occurs in `keys`. */
  lemma PositionIndex(keys: seq<Position>, p: Position) returns (i: nat)
    requires p in keys
    ensures i < |keys| && keys[i] == p
  {
    i :| 0 <= i < |keys| && keys[i] == p;
  }

  // ------------------------------------------------------------------
  // The numbering of any ascending list of positions
  // ------------------------------------------------------------------

  lemma NumberingShape<I>(c: map<Position, seq<I>>, keys: seq<Position>)
    requires Covers(c, keys) && StrictlyIncreasing(keys)
    ensures forall p :: p in LineNumbers(c, keys) <==> p in keys && c[p] != []
    ensures forall p :: p in LineNumbers(c, keys) ==>
      p in c && |LineNumbers(c, keys)[p]| == |c[p]| && StrictlyIncreasing(LineNumbers(c, keys)[p])
  {
    var lines := LineNumbers(c, keys);
    LineNumbersDomain(c, keys);
    forall p | p in lines
      ensures p in c && |lines[p]| == |c[p]| && StrictlyIncreasing(lines[p])
    {
      var i := PositionIndex(keys, p);
      LineNumbersAt(c, keys, i);
      RangeAt(|Flatten(c, keys[..i])| + 1, |c[p]|);
    }
  }

  /** The line number given to the `j`-th instruction captured under `keys[i]`. */
  lemma NumberingAt<I>(c: map<Position, seq<I>>, keys: seq<Position>, i: nat, j: nat)
    requires Covers(c, keys) && StrictlyIncreasing(keys)
    requires i < |keys| && j < |c[keys[i]]|
    ensures keys[i] in LineNumbers(c, keys) && j < |LineNumbers(c, keys)[keys[i]]|
    ensures LineNumbers(c, keys)[keys[i]][j] == |Flatten(c, keys[..i])| + j + 1
  {
    LineNumbersAt(c, keys, i);
    RangeAt(|Flatten(c, keys[..i])| + 1, |c[keys[i]]|);
  }

  /** Line `k + 1` holds the text of `s[k]`. */
  lemma LineMapAt<I>(s: seq<I>, toText: I -> string, k: nat)
    requires k < |s|
    ensures k + 1 in LineMap(s, toText) && LineMap(s, toText)[k + 1] == toText(s[k])
  {
    LineMapNumbering(s, toText);
  }

  /** The line number of the `j`-th instruction under `keys[i]` holds that instruction's text. */
  lemma CaptureOrderAt<I>(c: map<Position, seq<I>>, keys: seq<Position>, toText: I -> string, i: nat, j: nat)
    requires Covers(c, keys) && StrictlyIncreasing(keys)
    requires i < |keys| && j < |c[keys[i]]|
    ensures keys[i] in LineNumbers(c, keys) && j < |LineNumbers(c, keys)[keys[i]]|
    ensures LineNumbers(c, keys)[keys[i]][j] in LineMap(Flatten(c, keys), toText)
    ensures LineMap(Flatten(c, keys), toText)[LineNumbers(c, keys)[keys[i]][j]] == toText(c[keys[i]][j])
  {
    var k := |Flatten(c, keys[..i])| + j;
    var flat := Flatten(c, keys);
    NumberingAt(c, keys, i, j);
    FlattenAt(c, keys, i, j);
    LineMapAt(flat, toText, k);
    assert LineNumbers(c, keys)[keys[i]][j] == k + 1 && flat[k] == c[keys[i]][j];
  }

  /**
   * The `j`-th line number recorded under `p` is the line holding the text of
   * the `j`-th instruction captured at `p`.
   */
  predicate FollowsCaptureOrder<I>(c: map<Position, seq<I>>, lines: map<Position, seq<nat>>, text: map<nat, string>, toText: I -> string)
  {
    forall p, j :: p in lines && p in c && 0 <= j < |c[p]| ==>
      j < |lines[p]| && lines[p][j] in text && text[lines[p][j]] == toText(c[p][j])
  }

  lemma NumberingFollowsCaptureOrder<I>(c: map<Position, seq<I>>, keys: seq<Position>, toText: I -> string)
    requires Covers(c, keys) && StrictlyIncreasing(keys)
    ensures FollowsCaptureOrder(c, LineNumbers(c, keys), LineMap(Flatten(c, keys), toText), toText)
  {
    var lines, text := LineNumbers(c, keys), LineMap(Flatten(c, keys), toText);
    forall p, j | p in lines && p in c && 0 <= j < |c[p]|
      ensures j < |lines[p]| && lines[p][j] in text && text[lines[p][j]] == toText(c[p][j])
    {
      LineNumbersDomain(c, keys);
      var i := PositionIndex(keys, p);
      CaptureOrderAt(c, keys, toText, i, j);
    }
  }

  lemma NumberingOrderedByPosition<I>(c: map<Position, seq<I>>, keys: seq<Position>)
    requires Covers(c, keys) && StrictlyIncreasing(keys)
    ensures var lines := LineNumbers(c, keys);
      forall p, q, x, y :: p in lines && q in lines && p < q && 0 <= x < |lines[p]| && 0 <= y < |lines[q]| ==>
        lines[p][x] < lines[q][y]
  {
    var lines := LineNumbers(c, keys);
    NumberingShape(c, keys);
    forall p, q, x, y | p in lines && q in lines && p < q && 0 <= x < |lines[p]| && 0 <= y < |lines[q]|
      ensures lines[p][x] < lines[q][y]
    {
      var i := PositionIndex(keys, p);
      var i' := PositionIndex(keys, q);
      assert i < i';
      NumberingAt(c, keys, i, x);
      NumberingAt(c, keys, i', y);
      FlattenStep(c, keys, i);
      FlattenMonotone(c, keys, i + 1, i');
    }
  }

  lemma NumberingPartitionsLines<I>(c: map<Position, seq<I>>, keys: seq<Position>, toText: I -> string)
    requires Covers(c, keys) && StrictlyIncreasing(keys)
    ensures var lines := LineNumbers(c, keys);
      forall k :: k in LineMap(Flatten(c, keys), toText) ==> exists p :: p in lines && k in lines[p]
    ensures var lines := LineNumbers(c, keys);
      forall p, q, k :: p in lines && q in lines && k in lines[p] && k in lines[q] ==> p == q
  {
    var lines, flat := LineNumbers(c, keys), Flatten(c, keys);
    LineMapNumbering(flat, toText);
    forall k | k in LineMap(flat, toText)
      ensures exists p :: p in lines && k in lines[p]
    {
      var i, j := FlattenLocate(c, keys, k - 1);
      NumberingAt(c, keys, i, j);
      assert lines[keys[i]][j] == k;
    }
    NumberingOrderedByPosition(c, keys);
    forall p, q, k | p in lines && q in lines && k in lines[p] && k in lines[q]
      ensures p == q
    {
      var x :| 0 <= x < |lines[p]| && lines[p][x] == k;
      var y :| 0 <= y < |lines[q]| && lines[q][y] == k;
    }
  }

  // ------------------------------------------------------------------
  // What get_annotations promises
  // ------------------------------------------------------------------

  /** The IR lines are numbered 1..N, N being the number of captured instructions. */
  lemma LinemapNumbersInstructions<I>(c: map<Position, seq<I>>, toText: I -> string)
    ensures var text := Annotations(c, toText).source.linemap;
      forall k :: k in text <==> 1 <= k <= |Instructions(c)|
    ensures var text := Annotations(c, toText).source.linemap;
      forall k :: 1 <= k <= |Instructions(c)| ==> text[k] == toText(Instructions(c)[k - 1])
    ensures Annotations(c, toText).source.annotations == []
  {
    LineMapNumbering(Instructions(c), toText);
  }

  /**
   * Exactly the positions with captured instructions get a list of line
   * numbers; each list is as long as the position's capture list and strictly
   * increasing.
   */
  lemma LinenomapShape<I>(c: map<Position, seq<I>>, toText: I -> string)
    ensures var lines := Annotations(c, toText).linenomap;
      forall p :: p in lines <==> p in c && c[p] != []
    ensures var lines := Annotations(c, toText).linenomap;
      forall p :: p in lines ==> p in c && |lines[p]| == |c[p]| && StrictlyIncreasing(lines[p])
  {
    SortedPositionsSorted(c.Keys);
    NumberingShape(c, SortedPositions(c.Keys));
  }

  /**
   * The `j`-th line number of position `p` labels the `j`-th instruction
   * captured under `p`.
   */
  lemma LinenomapFollowsCaptureOrder<I>(c: map<Position, seq<I>>, toText: I -> string)
    ensures var a := Annotations(c, toText);
      FollowsCaptureOrder(c, a.linenomap, a.source.linemap, toText)
  {
    SortedPositionsSorted(c.Keys);
    NumberingFollowsCaptureOrder(c, SortedPositions(c.Keys), toText);
  }

  /** Every line number of a smaller position is below every one of a larger position. */
  lemma LinenomapOrderedByPosition<I>(c: map<Position, seq<I>>, toText: I -> string)
    ensures var lines := Annotations(c, toText).linenomap;
      forall p, q, x, y :: p in lines && q in lines && p < q && 0 <= x < |lines[p]| && 0 <= y < |lines[q]| ==>
        lines[p][x] < lines[q][y]
  {
    SortedPositionsSorted(c.Keys);
    NumberingOrderedByPosition(c, SortedPositions(c.Keys));
    assert Annotations(c, toText).linenomap == LineNumbers(c, SortedPositions(c.Keys));
  }

  /** Every IR line number appears in the list of exactly one position. */
  lemma LinenomapPartitionsLines<I>(c: map<Position, seq<I>>, toText: I -> string)
    ensures var a := Annotations(c, toText);
      forall k :: k in a.source.linemap ==> exists p :: p in a.linenomap && k in a.linenomap[p]
    ensures var lines := Annotations(c, toText).linenomap;
      forall p, q, k :: p in lines && q in lines && k in lines[p] && k in lines[q] ==> p == q
  {
    SortedPositionsSorted(c.Keys);
    NumberingPartitionsLines(c, SortedPositions(c.Keys), toText);
    assert Annotations(c, toText).linenomap == LineNumbers(c, SortedPositions(c.Keys));
  }
}
