/** The "filter the live list, sending every dropped entity away as a side effect"
    pattern the game uses for platforms, coins and bombs. */
module Culling {
  import opened Lists
  import opened Engine

  /** Which entities a cull keeps. */
  datatype Rule =
    /** `bounds.right >= 0`, with the world scrolled by `offsetX` (platforms, coins). */
    | RightEdgeOnScreen(offsetX: real)
    /** `bounds.top <= engine.height` (bombs in the main scene). */
    | TopInView
    /** `offsetY < floor` (bombs in the menu scene). */
    | AboveFloor(floor: real)

  predicate Keeps(rule: Rule, n: Node)
    reads n`x, n`y, n`width
  {
    match rule
    case RightEdgeOnScreen(offsetX) => Right(n, offsetX) >= 0.0
    case TopInView => n.y <= ENGINE_HEIGHT
    case AboveFloor(floor) => n.y < floor
  }

  /** The filter's verdict on each entity of the list. */
  function Mask(rule: Rule, ps: seq<Node>): (m: seq<bool>)
    reads ps`x, ps`y, ps`width
    ensures |m| == |ps|
    ensures forall i :: 0 <= i < |ps| ==> m[i] == Keeps(rule, ps[i])
    decreases |ps|
  {
    if ps == [] then [] else Mask(rule, ps[..|ps| - 1]) + [Keeps(rule, ps[|ps| - 1])]
  }

  /** The entities the filter keeps, in list order. */
  function Kept(rule: Rule, ps: seq<Node>): seq<Node>
    reads ps`x, ps`y, ps`width
  {
    Select(ps, Mask(rule, ps), true)
  }

  /** The entities the filter drops, in list order. */
  function Culled(rule: Rule, ps: seq<Node>): seq<Node>
    reads ps`x, ps`y, ps`width
  {
    Select(ps, Mask(rule, ps), false)
  }

  /** The elements of `s` whose verdict is `b`, in order. */
  function Select<T>(s: seq<T>, m: seq<bool>, b: bool): (r: seq<T>)
    requires |m| == |s|
    ensures |r| <= |s|
  {
    if s == [] then []
    else Select(s[..|s| - 1], m[..|m| - 1], b) + if m[|m| - 1] == b then [s[|s| - 1]] else []
  }

  /** One more verdict adds at most its own element, at the end. */
  lemma SelectStep<T>(s: seq<T>, m: seq<bool>, b: bool, i: int)
    requires |m| == |s| && 0 <= i < |s|
    ensures Select(s[..i + 1], m[..i + 1], b) == Select(s[..i], m[..i], b) + if m[i] == b then [s[i]] else []
  {
    assert s[..i + 1][..i] == s[..i];
    assert m[..i + 1][..i] == m[..i];
  }

  /** Selecting keeps exactly the elements with verdict `b`. */
  lemma {:induction false} SelectMembership<T>(s: seq<T>, m: seq<bool>, b: bool)
    requires |m| == |s|
    ensures forall x :: x in Select(s, m, b) ==> exists i :: 0 <= i < |s| && s[i] == x && m[i] == b
    ensures forall i :: 0 <= i < |s| && m[i] == b ==> s[i] in Select(s, m, b)
  {
    if s != [] {
      var s', m' := s[..|s| - 1], m[..|m| - 1];
      SelectMembership(s', m', b);
      forall i | 0 <= i < |s| && m[i] == b ensures s[i] in Select(s, m, b) {
        if i < |s'| { assert s'[i] == s[i] && m'[i] == m[i]; }
      }
      forall x | x in Select(s, m, b) ensures exists i :: 0 <= i < |s| && s[i] == x && m[i] == b {
        if x in Select(s', m', b) {
          var i :| 0 <= i < |s'| && s'[i] == x && m'[i] == b;
          assert s[i] == x && m[i] == b;
        } else {
          assert s[|s| - 1] == x && m[|s| - 1] == b;
        }
      }
    }
  }

  /** Every selected element comes from the list. */
  lemma {:induction false} SelectSubset<T>(s: seq<T>, m: seq<bool>, b: bool)
    requires |m| == |s|
    ensures forall x :: x in Select(s, m, b) ==> x in s
  {
    if s != [] {
      var s', m' := s[..|s| - 1], m[..|m| - 1];
      SelectSubset(s', m', b);
      assert s == s' + [s[|s| - 1]];
    }
  }

  /** Selecting from a list without repetitions gives a list without repetitions. */
  lemma {:induction false} SelectDistinct<T>(s: seq<T>, m: seq<bool>, b: bool)
    requires |m| == |s| && Distinct(s)
    ensures Distinct(Select(s, m, b))
  {
    if s != [] {
      var s', m' := s[..|s| - 1], m[..|m| - 1];
      var x := s[|s| - 1];
      assert Distinct(s');
      SelectDistinct(s', m', b);
      SelectSubset(s', m', b);
      var t := Select(s', m', b);
      if m[|m| - 1] == b {
        assert Select(s, m, b) == t + [x] && (t + [x])[..|t|] == t;
      } else {
        assert Select(s, m, b) == t;
      }
    }
  }

  /** No element of a list without repetitions is both kept and dropped. */
  lemma {:induction false} SelectDisjoint<T>(s: seq<T>, m: seq<bool>)
    requires |m| == |s| && Distinct(s)
    ensures Disjoint(Select(s, m, true), Select(s, m, false))
  {
    if s != [] {
      var s', m' := s[..|s| - 1], m[..|m| - 1];
      var x := s[|s| - 1];
      assert Distinct(s');
      SelectDisjoint(s', m');
      SelectSubset(s', m', true);
      SelectSubset(s', m', false);
      assert x !in s';
    }
  }

  /** Every element is selected one way or the other. */
  lemma {:induction false} SelectLengths<T>(s: seq<T>, m: seq<bool>)
    requires |m| == |s|
    ensures |Select(s, m, true)| + |Select(s, m, false)| == |s|
  {
    if s != [] {
      SelectLengths(s[..|s| - 1], m[..|m| - 1]);
    }
  }

  /** Nothing is selected when no verdict is `b`. */
  lemma {:induction false} SelectNone<T>(s: seq<T>, m: seq<bool>, b: bool)
    requires |m| == |s|
    requires forall i :: 0 <= i < |m| ==> m[i] != b
    ensures Select(s, m, b) == []
  {
    if s != [] {
      SelectNone(s[..|s| - 1], m[..|m| - 1], b);
    }
  }

  /** When no `true` verdict precedes a `false` one, the `false` elements form a prefix. */
  lemma {:induction false} SelectPrefix<T>(s: seq<T>, m: seq<bool>)
    requires |m| == |s|
    requires forall i, j :: 0 <= i < j < |m| && m[i] ==> m[j]
    ensures s == Select(s, m, false) + Select(s, m, true)
  {
    if s != [] {
      var s', m' := s[..|s| - 1], m[..|m| - 1];
      var x := s[|s| - 1];
      SelectPrefix(s', m');
      var f, t := Select(s', m', false), Select(s', m', true);
      assert s' == f + t;
      if m[|m| - 1] {
        assert Select(s, m, true) == t + [x] && Select(s, m, false) == f;
        calc {
          Select(s, m, false) + Select(s, m, true);
          f + (t + [x]);
          (f + t) + [x];
          s' + [x];
          s;
        }
      } else {
        SelectNone(s', m', true);
        assert Select(s, m, true) == [] && Select(s, m, false) == f + [x];
        assert s == s' + [x];
      }
    }
  }

  /** With such verdicts, an element is kept exactly when it lies past the dropped prefix. */
  lemma {:induction false} SelectPrefixVerdicts<T>(s: seq<T>, m: seq<bool>)
    requires |m| == |s|
    requires forall i, j :: 0 <= i < j < |m| && m[i] ==> m[j]
    ensures forall k :: 0 <= k < |m| ==> (m[k] <==> k >= |Select(s, m, false)|)
  {
    if s != [] {
      var s', m' := s[..|s| - 1], m[..|m| - 1];
      SelectPrefixVerdicts(s', m');
      if !m[|m| - 1] {
        SelectNone(s, m, true);
        SelectLengths(s, m);
      }
    }
  }

  /** Splitting a list without repetitions at such verdicts, and handing the dropped
      prefix to a free list it shares nothing with, leaves two lists without repetitions
      and without common elements. */
  lemma PrefixSplit<T>(s: seq<T>, m: seq<bool>, free: seq<T>)
    requires |m| == |s|
    requires forall i, j :: 0 <= i < j < |m| && m[i] ==> m[j]
    requires Distinct(s) && Distinct(free) && Disjoint(s, free)
    ensures s == Select(s, m, false) + Select(s, m, true)
    ensures Distinct(Select(s, m, true)) && Distinct(free + Select(s, m, false))
    ensures Disjoint(Select(s, m, true), free + Select(s, m, false))
  {
    SelectPrefix(s, m);
    SelectDistinct(s, m, true);
    SelectDistinct(s, m, false);
    SelectDisjoint(s, m);
    SelectSubset(s, m, true);
    SelectSubset(s, m, false);
    DistinctConcat(free, Select(s, m, false));
  }

  /** The filter keeps exactly the entities the rule keeps, and drops exactly the others. */
  lemma CullMembership(rule: Rule, ps: seq<Node>)
    ensures forall n :: n in Kept(rule, ps) ==> n in ps && Keeps(rule, n)
    ensures forall n :: n in Culled(rule, ps) ==> n in ps && !Keeps(rule, n)
    ensures forall n :: n in ps ==> n in Kept(rule, ps) || n in Culled(rule, ps)
  {
    var m := Mask(rule, ps);
    SelectMembership(ps, m, true);
    SelectMembership(ps, m, false);
    forall n | n in ps ensures n in Kept(rule, ps) || n in Culled(rule, ps) {
      var i :| 0 <= i < |ps| && ps[i] == n;
    }
  }

  /** Keeping and dropping split a list without repetitions into two disjoint lists
      without repetitions. */
  lemma CullSplits(rule: Rule, ps: seq<Node>)
    requires Distinct(ps)
    ensures Distinct(Kept(rule, ps)) && Distinct(Culled(rule, ps))
    ensures Disjoint(Kept(rule, ps), Culled(rule, ps))
    ensures |Kept(rule, ps)| + |Culled(rule, ps)| == |ps|
  {
    var m := Mask(rule, ps);
    SelectDistinct(ps, m, true);
    SelectDistinct(ps, m, false);
    SelectDisjoint(ps, m);
    SelectLengths(ps, m);
  }

  /** The entities a filter keeps stay without repetitions and stay out of any list the
      whole list kept out of. */
  lemma KeptApart(rule: Rule, ps: seq<Node>, others: seq<Node>)
    requires Distinct(ps) && Disjoint(ps, others)
    ensures Distinct(Kept(rule, ps)) && Disjoint(Kept(rule, ps), others)
  {
    CullSplits(rule, ps);
    CullMembership(rule, ps);
  }

  /** A cull that hands the dropped entities to a free list the whole list kept out of:
      the kept ones and the grown free list stay without repetitions and apart. */
  lemma CullTracked(rule: Rule, ps: seq<Node>, free: seq<Node>)
    requires Distinct(ps) && Distinct(free) && Disjoint(ps, free)
    ensures Distinct(Kept(rule, ps)) && Distinct(free + Culled(rule, ps))
    ensures Disjoint(Kept(rule, ps), free + Culled(rule, ps))
  {
    CullSplits(rule, ps);
    CullMembership(rule, ps);
    DistinctConcat(free, Culled(rule, ps));
  }

  /** What a dropped entity's parent flag becomes. */
  function AttachedAfter(was: bool, detachFirst: bool, hook: ClearHook): bool {
    was && !detachFirst && hook == NoClear
  }

  /** What a dropped entity's listeners become. */
  function ListenersAfter(ls: set<Event>, hook: ClearHook): set<Event> {
    if hook == DropListenersAndDetach then {} else ls
  }

  /** The else-branch of the filter callback: `removeChild` when `detachFirst`, then
      `pool.push`. */
  method Dispose(world: World, p: Node, pool: NodePool, detachFirst: bool)
    modifies pool`free, p`attached, p`listeners
    ensures pool.free == old(pool.free) + [p]
    ensures p.attached == AttachedAfter(old(p.attached), detachFirst, pool.hook)
    ensures p.listeners == ListenersAfter(old(p.listeners), pool.hook)
  {
    if detachFirst {
      world.RemoveChild(p);
    }
    pool.Push(p);
  }

  /** After the filter loop has looked at the first `i` entities, starting from the parent
      flags `att0` and listener sets `ls0`: exactly the dropped ones among them have been
      disposed of. */
  ghost predicate Disposed(ps: seq<Node>, m: seq<bool>, i: int, att0: seq<bool>, ls0: seq<set<Event>>,
                           detachFirst: bool, hook: ClearHook)
    reads ps`attached, ps`listeners
  {
    && |m| == |ps| == |att0| == |ls0| && 0 <= i <= |ps|
    && forall k :: 0 <= k < |ps| ==>
      && ps[k].attached == (if k < i && !m[k] then AttachedAfter(att0[k], detachFirst, hook) else att0[k])
      && ps[k].listeners == (if k < i && !m[k] then ListenersAfter(ls0[k], hook) else ls0[k])
  }

  /** One pass of the filter loop: entity `i` is kept, or disposed of. */
  method FilterStep(world: World, ps: seq<Node>, m: seq<bool>, pool: NodePool, detachFirst: bool, i: int,
                    kept: seq<Node>, ghost att0: seq<bool>, ghost ls0: seq<set<Event>>, ghost free0: seq<Node>)
    returns (kept': seq<Node>)
    requires Distinct(ps) && 0 <= i < |ps| && Disposed(ps, m, i, att0, ls0, detachFirst, pool.hook)
    requires kept == Select(ps[..i], m[..i], true)
    requires pool.free == free0 + Select(ps[..i], m[..i], false)
    modifies pool`free, (ps[i] as Node)`attached, (ps[i] as Node)`listeners
    ensures Disposed(ps, m, i + 1, att0, ls0, detachFirst, pool.hook)
    ensures kept' == Select(ps[..i + 1], m[..i + 1], true)
    ensures pool.free == free0 + Select(ps[..i + 1], m[..i + 1], false)
  {
    var p := ps[i];
    DistinctAt(ps, i);
    SelectStep(ps, m, true, i);
    SelectStep(ps, m, false, i);
    if m[i] {
      kept' := kept + [p];
    } else {
      kept' := kept;
      Dispose(world, p, pool, detachFirst);
    }
  }

  /** The filter loop, given the callback's verdict on each entity: kept entities are
      collected in order, dropped ones are disposed of. */
  method Filter(world: World, ps: seq<Node>, m: seq<bool>, pool: NodePool, detachFirst: bool)
    returns (kept: seq<Node>)
    requires Distinct(ps) && |m| == |ps|
    modifies pool`free, ps`attached, ps`listeners
    ensures kept == Select(ps, m, true)
    ensures pool.free == old(pool.free) + Select(ps, m, false)
    ensures forall k :: 0 <= k < |ps| ==>
      ps[k].attached == if m[k] then old(ps[k].attached) else AttachedAfter(old(ps[k].attached), detachFirst, pool.hook)
    ensures forall k :: 0 <= k < |ps| ==>
      ps[k].listeners == if m[k] then old(ps[k].listeners) else ListenersAfter(old(ps[k].listeners), pool.hook)
  {
    ghost var att0 := seq(|ps|, k requires 0 <= k < |ps| reads ps => ps[k].attached);
    ghost var ls0 := seq(|ps|, k requires 0 <= k < |ps| reads ps => ps[k].listeners);
    ghost var free0 := pool.free;
    kept := [];
    var i := 0;
    while i < |ps|
      invariant 0 <= i <= |ps| && Disposed(ps, m, i, att0, ls0, detachFirst, pool.hook)
      invariant kept == Select(ps[..i], m[..i], true)
      invariant pool.free == free0 + Select(ps[..i], m[..i], false)
    {
      kept := FilterStep(world, ps, m, pool, detachFirst, i, kept, att0, ls0, free0);
      i := i + 1;
    }
    assert ps[..i] == ps && m[..i] == m;
  }

  /** `ps.filter(...)` whose callback drops an entity by `removeChild` (when
      `detachFirst`) and `pool.push`. The callback reads only positions and sizes, which
      disposing of an entity never changes, so its verdicts are taken up front. */
  method Cull(world: World, ps: seq<Node>, rule: Rule, pool: NodePool, detachFirst: bool)
    returns (kept: seq<Node>)
    requires Distinct(ps)
    modifies pool`free, ps`attached, ps`listeners
    ensures kept == old(Kept(rule, ps))
    ensures pool.free == old(pool.free + Culled(rule, ps))
    ensures forall k :: 0 <= k < |ps| ==>
      ps[k].attached == if old(Mask(rule, ps))[k] then old(ps[k].attached) else AttachedAfter(old(ps[k].attached), detachFirst, pool.hook)
    ensures forall k :: 0 <= k < |ps| ==>
      ps[k].listeners == if old(Mask(rule, ps))[k] then old(ps[k].listeners) else ListenersAfter(old(ps[k].listeners), pool.hook)
  {
    var m := Mask(rule, ps);
    kept := Filter(world, ps, m, pool, detachFirst);
  }

  /** The filter loop of a cull that only detaches what it drops. */
  method FilterDetach(world: World, ps: seq<Node>, m: seq<bool>) returns (kept: seq<Node>)
    requires Distinct(ps) && |m| == |ps|
    modifies ps`attached
    ensures kept == Select(ps, m, true)
    ensures forall k :: 0 <= k < |ps| ==> ps[k].attached == (m[k] && old(ps[k].attached))
  {
    kept := [];
    var i := 0;
    while i < |ps|
      invariant 0 <= i <= |ps|
      invariant kept == Select(ps[..i], m[..i], true)
      invariant forall k :: 0 <= k < |ps| ==>
        ps[k].attached == if k < i && !m[k] then false else old(ps[k].attached)
    {
      var p := ps[i];
      DistinctAt(ps, i);
      SelectStep(ps, m, true, i);
      if m[i] {
        kept := kept + [p];
      } else {
        world.RemoveChild(p);
      }
      i := i + 1;
    }
    assert ps[..i] == ps && m[..i] == m;
  }

  /** `ps.filter(...)` whose callback drops an entity by `removeChild` alone. */
  method CullDetach(world: World, ps: seq<Node>, rule: Rule) returns (kept: seq<Node>)
    requires Distinct(ps)
    modifies ps`attached
    ensures kept == old(Kept(rule, ps))
    ensures forall k :: 0 <= k < |ps| ==> ps[k].attached == (old(Keeps(rule, ps[k])) && old(ps[k].attached))
  {
    var m := Mask(rule, ps);
    kept := FilterDetach(world, ps, m);
  }
}
