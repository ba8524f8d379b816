/**
 * The document hierarchy of the semantic visitor: a stack of levels, one per active copybook
 * scope, each holding the queue of original source positions not yet consumed in that scope, and
 * the token mapping (scope name to its ordered original positions) that seeds new levels and that
 * the fallback search reverses in place.
 *
 * This module holds the values and the specification of each step; the class in module Visitor
 * performs the same steps on its fields.
 */
module DocumentHierarchy {
  import opened Wrappers

  /** An original source position; `token` is the token text, absent for positions built by hand */
  datatype Position = Position(documentUri: string, start: int, stop: int, line: int,
                               charPositionInLine: int, token: Option<string>)

  /** DocumentHierarchyLevel: a scope name and the positions still unconsumed in that scope */
  datatype HierarchyLevel = HierarchyLevel(name: string, positions: seq<Position>)

  /** The exceptions the hierarchy steps can raise */
  datatype Failure = NullPointerException | NoSuchElementException | IllegalArgumentException

  /** The stack (top at index 0, as ArrayDeque.push/peek/pop use it) and the token mapping */
  datatype Tracker = Tracker(stack: seq<HierarchyLevel>, mapping: map<string, seq<Position>>)

  /** What retrievePosition leaves behind and returns (None stands for null) */
  datatype Resolution = Resolution(tracker: Tracker, position: Option<Position>)

  // ---------------------------------------------------------------------------------------------
  // Searching a position list by token text
  // ---------------------------------------------------------------------------------------------

  predicate Matches(p: Position, text: string)
  {
    p.token == Some(text)
  }

  /** stream().filter(token equals text).findFirst(), as an index */
  function FirstMatch(ps: seq<Position>, text: string): (r: Option<nat>)
    ensures r.Some? ==> r.value < |ps| && Matches(ps[r.value], text)
    ensures r.Some? ==> forall j :: 0 <= j < r.value ==> !Matches(ps[j], text)
    ensures r.None? ==> forall j :: 0 <= j < |ps| ==> !Matches(ps[j], text)
  {
    if ps == [] then None
    else if Matches(ps[0], text) then Some(0)
    else match FirstMatch(ps[1..], text)
      case None => None
      case Some(i) => Some(i + 1)
  }

  /** The element FirstMatch selects, or None */
  function FindFirst(ps: seq<Position>, text: string): Option<Position>
  {
    match FirstMatch(ps, text)
    case None => None
    case Some(i) => Some(ps[i])
  }

  /** `s` in reverse order, as Collections.reverse leaves it */
  function Reverse<T>(s: seq<T>): (r: seq<T>)
    ensures |r| == |s|
    ensures forall i :: 0 <= i < |s| ==> r[i] == s[|s| - 1 - i]
  {
    if s == [] then [] else Reverse(s[1..]) + [s[0]]
  }

  /** The mapping entry of `name`, or the empty list when the name is unmapped */
  function MappedPositions(mapping: map<string, seq<Position>>, name: string): seq<Position>
  {
    if name in mapping then mapping[name] else []
  }

  // ---------------------------------------------------------------------------------------------
  // The steps
  // ---------------------------------------------------------------------------------------------

  /** The state after construction: one level for the document, seeded with its whole mapping */
  function Initial(documentUri: string, mapping: map<string, seq<Position>>): Tracker
    requires documentUri in mapping
  {
    Tracker([HierarchyLevel(documentUri, mapping[documentUri])], mapping)
  }

  /** visitEnterCpy / visitDataDescriptionEntryCpy: push a level seeded from the mapping */
  function Enter(t: Tracker, name: string): Tracker
  {
    t.(stack := [HierarchyLevel(name, MappedPositions(t.mapping, name))] + t.stack)
  }

  /** moveToPreviousLevel: ArrayDeque.pop, which throws on an empty stack */
  function Exit(t: Tracker): (r: Result<Tracker, Failure>)
    ensures r.Err? <==> t.stack == []
    ensures r.Err? ==> r.error == NoSuchElementException
    ensures r.Ok? ==> r.value.mapping == t.mapping && |r.value.stack| + 1 == |t.stack|
  {
    if t.stack == [] then Err(NoSuchElementException)
    else Ok(t.(stack := t.stack[1..]))
  }

  /**
   * retrievePosition for a node whose start token has text `text`:
   *  - with no level, nothing is found and nothing changes;
   *  - a match in the top queue is returned and the queue drops everything up to it;
   *  - otherwise the consumed prefix of the scope's mapping entry is reversed in place and
   *    searched; the queue is left as it is.
   */
  function Retrieve(t: Tracker, text: string): Result<Resolution, Failure>
  {
    if t.stack == [] then Ok(Resolution(t, None))
    else
      var top := t.stack[0];
      match FirstMatch(top.positions, text)
      case Some(i) =>
        var rest := top.positions[i + 1..];
        Ok(Resolution(t.(stack := [top.(positions := rest)] + t.stack[1..]), Some(top.positions[i])))
      case None =>
        if top.name !in t.mapping then Err(NullPointerException)
        else
          var initial := t.mapping[top.name];
          if |initial| < |top.positions| then Err(IllegalArgumentException)
          else
            var consumed := |initial| - |top.positions|;
            var reversed := Reverse(initial[..consumed]);
            Ok(Resolution(t.(mapping := t.mapping[top.name := reversed + initial[consumed..]]),
                          FindFirst(reversed, text)))
  }

  // ---------------------------------------------------------------------------------------------
  // Invariant
  // ---------------------------------------------------------------------------------------------

  /**
   * Every level of a mapped scope holds no more positions than its mapping entry, and every level
   * of an unmapped scope holds none: the consumed prefix of the fallback search always exists.
   */
  predicate WellFormed(t: Tracker)
  {
    forall k :: 0 <= k < |t.stack| ==>
      if t.stack[k].name in t.mapping then |t.stack[k].positions| <= |t.mapping[t.stack[k].name]|
      else t.stack[k].positions == []
  }

  /** The mapping only ever has prefixes permuted: same keys, same lengths */
  predicate SameShape(m: map<string, seq<Position>>, m': map<string, seq<Position>>)
  {
    m.Keys == m'.Keys && forall name :: name in m ==> |m'[name]| == |m[name]|
  }

  lemma InitialWellFormed(documentUri: string, mapping: map<string, seq<Position>>)
    requires documentUri in mapping
    ensures WellFormed(Initial(documentUri, mapping))
    ensures |Initial(documentUri, mapping).stack| == 1
  {
  }

  lemma EnterWellFormed(t: Tracker, name: string)
    requires WellFormed(t)
    ensures WellFormed(Enter(t, name))
  {
    var t' := Enter(t, name);
    forall k | 0 <= k < |t'.stack|
      ensures if t'.stack[k].name in t'.mapping then |t'.stack[k].positions| <= |t'.mapping[t'.stack[k].name]|
              else t'.stack[k].positions == []
    {
      if k > 0 {
        assert t'.stack[k] == t.stack[k - 1];
      }
    }
  }

  lemma ExitWellFormed(t: Tracker)
    requires WellFormed(t) && t.stack != []
    ensures Exit(t).Ok? && WellFormed(Exit(t).value)
  {
    var t' := Exit(t).value;
    forall k | 0 <= k < |t'.stack|
      ensures if t'.stack[k].name in t'.mapping then |t'.stack[k].positions| <= |t'.mapping[t'.stack[k].name]|
              else t'.stack[k].positions == []
    {
      assert t'.stack[k] == t.stack[k + 1];
    }
  }

  /** A well-formed state fails retrieval only with a miss in an unmapped scope, never with an
      index error, and stays well formed */
  lemma RetrieveWellFormed(t: Tracker, text: string)
    requires WellFormed(t)
    ensures Retrieve(t, text).Err? <==> t.stack != [] && t.stack[0].name !in t.mapping
    ensures Retrieve(t, text).Err? ==> Retrieve(t, text).error == NullPointerException
    ensures Retrieve(t, text).Ok? ==> WellFormed(Retrieve(t, text).value.tracker)
    ensures Retrieve(t, text).Ok? ==> SameShape(t.mapping, Retrieve(t, text).value.tracker.mapping)
  {
    if t.stack != [] {
      var top := t.stack[0];
      assert if top.name in t.mapping then |top.positions| <= |t.mapping[top.name]|
             else top.positions == [];
      var r := Retrieve(t, text);
      if r.Ok? {
        var t' := r.value.tracker;
        forall k | 0 <= k < |t'.stack|
          ensures if t'.stack[k].name in t'.mapping then |t'.stack[k].positions| <= |t'.mapping[t'.stack[k].name]|
                  else t'.stack[k].positions == []
        {
          assert if t.stack[k].name in t.mapping then |t.stack[k].positions| <= |t.mapping[t.stack[k].name]|
                 else t.stack[k].positions == [];
        }
      }
    }
  }

  // ---------------------------------------------------------------------------------------------
  // Properties of retrieval
  // ---------------------------------------------------------------------------------------------

  /** With no level, nothing is found and nothing changes */
  lemma RetrieveEmptyStack(t: Tracker, text: string)
    requires t.stack == []
    ensures Retrieve(t, text) == Ok(Resolution(t, None))
  {
  }

  /**
   * A forward hit returns the first queued position with the token, drops the queue up to and
   * including it (so the queue strictly shrinks and stays a suffix of what it was), and changes
   * neither the mapping nor any other level.
   */
  lemma RetrieveHit(t: Tracker, text: string, i: nat)
    requires t.stack != [] && i < |t.stack[0].positions|
    requires Matches(t.stack[0].positions[i], text)
    requires forall j :: 0 <= j < i ==> !Matches(t.stack[0].positions[j], text)
    ensures Retrieve(t, text).Ok?
    ensures Retrieve(t, text).value.position == Some(t.stack[0].positions[i])
    ensures Retrieve(t, text).value.tracker.mapping == t.mapping
    ensures |Retrieve(t, text).value.tracker.stack| == |t.stack|
    ensures Retrieve(t, text).value.tracker.stack[0].name == t.stack[0].name
    ensures Retrieve(t, text).value.tracker.stack[0].positions == t.stack[0].positions[i + 1..]
    ensures |Retrieve(t, text).value.tracker.stack[0].positions| < |t.stack[0].positions|
    ensures Retrieve(t, text).value.tracker.stack[1..] == t.stack[1..]
  {
    match FirstMatch(t.stack[0].positions, text)
    case None =>
    case Some(k) =>
      assert k == i by {
        if k < i {
        } else if i < k {
        }
      }
  }

  /**
   * A miss in a mapped scope leaves the whole stack as it was, reverses in place the prefix of
   * the mapping entry that the level has consumed, and returns the first match in that reversed
   * prefix.
   */
  lemma RetrieveMiss(t: Tracker, text: string)
    requires WellFormed(t) && t.stack != [] && t.stack[0].name in t.mapping
    requires forall j :: 0 <= j < |t.stack[0].positions| ==> !Matches(t.stack[0].positions[j], text)
    ensures var initial := t.mapping[t.stack[0].name];
            var consumed := |initial| - |t.stack[0].positions|;
            && 0 <= consumed
            && Retrieve(t, text)
               == Ok(Resolution(Tracker(t.stack, t.mapping[t.stack[0].name := ReversePrefix(initial, consumed)]),
                                FindFirst(Reverse(initial[..consumed]), text)))
  {
    assert |t.stack[0].positions| <= |t.mapping[t.stack[0].name]|;
  }

  /** `s` with its first `c` elements reversed in place, as Collections.reverse on subList(0, c) */
  function ReversePrefix<T>(s: seq<T>, c: nat): (r: seq<T>)
    requires c <= |s|
    ensures |r| == |s|
  {
    Reverse(s[..c]) + s[c..]
  }

  /**
   * The search over the reversed prefix is a search for the LAST match in the prefix as it was:
   * the most recently consumed position with the token.
   */
  lemma ReversedSearchFindsLast(s: seq<Position>, text: string)
    ensures FindFirst(Reverse(s), text).Some? <==> exists j :: 0 <= j < |s| && Matches(s[j], text)
    ensures FindFirst(Reverse(s), text).Some? ==>
              exists j :: 0 <= j < |s| && Matches(s[j], text) && FindFirst(Reverse(s), text) == Some(s[j])
                          && forall k :: j < k < |s| ==> !Matches(s[k], text)
  {
    var r := Reverse(s);
    match FirstMatch(r, text)
    case None =>
      forall j | 0 <= j < |s|
        ensures !Matches(s[j], text)
      {
        assert s[j] == r[|s| - 1 - j];
      }
    case Some(i) =>
      var j := |s| - 1 - i;
      assert s[j] == r[i];
      forall k | j < k < |s|
        ensures !Matches(s[k], text)
      {
        assert s[k] == r[|s| - 1 - k];
      }
  }

  lemma {:induction false} ReverseReverse<T>(s: seq<T>)
    ensures Reverse(Reverse(s)) == s
  {
    var r := Reverse(s);
    assert forall i :: 0 <= i < |s| ==> Reverse(r)[i] == r[|s| - 1 - i] == s[i];
  }

  /** The queue of the top level stays a suffix of its mapping entry across a retrieval */
  predicate TopIsSuffix(t: Tracker)
  {
    t.stack != [] && t.stack[0].name in t.mapping
    && var q, m := t.stack[0].positions, t.mapping[t.stack[0].name];
       |q| <= |m| && m[|m| - |q|..] == q
  }

  lemma RetrieveKeepsSuffix(t: Tracker, text: string)
    requires TopIsSuffix(t)
    ensures Retrieve(t, text).Ok? && TopIsSuffix(Retrieve(t, text).value.tracker)
  {
    var q, m := t.stack[0].positions, t.mapping[t.stack[0].name];
    match FirstMatch(q, text)
    case Some(i) =>
      assert m[|m| - |q[i + 1..]|..] == q[i + 1..] by {
        assert m[|m| - |q|..][i + 1..] == q[i + 1..];
      }
    case None =>
      var consumed := |m| - |q|;
      var m' := Reverse(m[..consumed]) + m[consumed..];
      assert m'[|m'| - |q|..] == m[consumed..];
  }

  /**
   * Two misses in a row on the same scope: the second reverses the prefix back, so the mapping is
   * as it was before the first, and the second search runs in consumption order (oldest first).
   */
  lemma RepeatedMissFlipsOrder(t: Tracker, text: string, text': string)
    requires WellFormed(t) && t.stack != [] && t.stack[0].name in t.mapping
    requires forall j :: 0 <= j < |t.stack[0].positions| ==> !Matches(t.stack[0].positions[j], text)
    requires forall j :: 0 <= j < |t.stack[0].positions| ==> !Matches(t.stack[0].positions[j], text')
    ensures Retrieve(t, text).Ok?
    ensures var t1 := Retrieve(t, text).value.tracker;
            var initial := t.mapping[t.stack[0].name];
            && Retrieve(t1, text').Ok?
            && Retrieve(t1, text').value.tracker == t
            && Retrieve(t1, text').value.position
               == FindFirst(initial[..|initial| - |t.stack[0].positions|], text')
  {
    var name := t.stack[0].name;
    var initial := t.mapping[name];
    var consumed := |initial| - |t.stack[0].positions|;
    RetrieveMiss(t, text);
    var t1 := Tracker(t.stack, t.mapping[name := ReversePrefix(initial, consumed)]);
    ReversalKeepsWellFormed(t, name, consumed);
    RetrieveMiss(t1, text');
    FlipTwice(initial, consumed);
    assert t1.mapping[name := initial] == t.mapping;
  }

  /** Reversing a prefix of a mapping entry changes no entry's length */
  lemma ReversalKeepsWellFormed(t: Tracker, name: string, c: nat)
    requires WellFormed(t) && name in t.mapping && c <= |t.mapping[name]|
    ensures WellFormed(Tracker(t.stack, t.mapping[name := ReversePrefix(t.mapping[name], c)]))
  {
    var t' := Tracker(t.stack, t.mapping[name := ReversePrefix(t.mapping[name], c)]);
    forall k | 0 <= k < |t'.stack|
      ensures if t'.stack[k].name in t'.mapping then |t'.stack[k].positions| <= |t'.mapping[t'.stack[k].name]|
              else t'.stack[k].positions == []
    {
      assert if t.stack[k].name in t.mapping then |t.stack[k].positions| <= |t.mapping[t.stack[k].name]|
             else t.stack[k].positions == [];
    }
  }

  /** Reversing the same prefix twice gives the sequence back, and the second reversal sees the
      prefix in reverse */
  lemma FlipTwice<T>(s: seq<T>, c: nat)
    requires c <= |s|
    ensures ReversePrefix(ReversePrefix(s, c), c) == s
    ensures Reverse(ReversePrefix(s, c)[..c]) == s[..c]
  {
    var f := ReversePrefix(s, c);
    assert f[..c] == Reverse(s[..c]);
    assert f[c..] == s[c..];
    ReverseReverse(s[..c]);
    assert s[..c] + s[c..] == s;
  }

  /** Retrieval touches only the top level: the levels below keep their queues */
  lemma RetrieveLeavesLowerLevels(t: Tracker, text: string)
    requires Retrieve(t, text).Ok?
    ensures |Retrieve(t, text).value.tracker.stack| == |t.stack|
    ensures t.stack != [] ==> Retrieve(t, text).value.tracker.stack[1..] == t.stack[1..]
    ensures t.stack != [] ==> Retrieve(t, text).value.tracker.stack[0].name == t.stack[0].name
  {
  }

  /** Successive retrievals, stopping at the first failure */
  function RetrieveEach(t: Tracker, texts: seq<string>): (r: Result<Tracker, Failure>)
    ensures r.Ok? && t.stack != [] ==> |r.value.stack| == |t.stack| && r.value.stack[1..] == t.stack[1..]
    decreases texts
  {
    if texts == [] then Ok(t)
    else match Retrieve(t, texts[0])
      case Err(e) => Err(e)
      case Ok(res) => RetrieveEach(res.tracker, texts[1..])
  }

  /**
   * A balanced copybook scope: entering, retrieving any number of tokens inside, and exiting gives
   * back the enclosing stack exactly, so the outer scope resumes where it stopped.
   */
  lemma BalancedScopeResumes(t: Tracker, name: string, texts: seq<string>)
    requires RetrieveEach(Enter(t, name), texts).Ok?
    ensures Exit(RetrieveEach(Enter(t, name), texts).value) == Ok(t.(mapping := RetrieveEach(Enter(t, name), texts).value.mapping))
  {
    var inner := RetrieveEach(Enter(t, name), texts).value;
    assert inner.stack[1..] == t.stack;
  }

  /** Exit undoes Enter */
  lemma ExitAfterEnter(t: Tracker, name: string)
    ensures Exit(Enter(t, name)) == Ok(t)
  {
  }

  // ---------------------------------------------------------------------------------------------
  // Example: the queue [("A", 1, 5), ("B", 1, 10), ("A", 2, 3)]
  // ---------------------------------------------------------------------------------------------

  function At(token: string, line: int, column: int): Position
  {
    Position("file:///main.cbl", column, column, line, column, Some(token))
  }

  /** Two forward references to "A" resolve to (1, 5) and then to (2, 3), not to (1, 5) again */
  lemma ForwardResolutionExample()
    ensures var queue := [At("A", 1, 5), At("B", 1, 10), At("A", 2, 3)];
            var t := Tracker([HierarchyLevel("file:///main.cbl", queue)], map["file:///main.cbl" := queue]);
            && Retrieve(t, "A").Ok?
            && Retrieve(t, "A").value.position == Some(At("A", 1, 5))
            && Retrieve(Retrieve(t, "A").value.tracker, "A").Ok?
            && Retrieve(Retrieve(t, "A").value.tracker, "A").value.position == Some(At("A", 2, 3))
  {
    var queue := [At("A", 1, 5), At("B", 1, 10), At("A", 2, 3)];
    var t := Tracker([HierarchyLevel("file:///main.cbl", queue)], map["file:///main.cbl" := queue]);
    RetrieveHit(t, "A", 0);
    var t1 := Retrieve(t, "A").value.tracker;
    assert t1.stack[0].positions == [At("B", 1, 10), At("A", 2, 3)];
    RetrieveHit(t1, "A", 1);
  }
}
