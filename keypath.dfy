/**
 * Keypath: dotted-path access into nested objects (`set`, `get`, `has`).
 * Objects are modelled as values, a map from property name to node, so an
 * update builds the changed path anew instead of mutating shared objects.
 */
module Keypath {
  import opened Wrappers

  /** A JavaScript value as the accessor sees it: a plain object (its own properties) or a primitive. */
  datatype Node = Obj(props: map<string, Node>) | Str(s: string) | Num(n: int) | Bool(b: bool) | Null | Undefined

  /** JavaScript truthiness. */
  predicate Truthy(n: Node) {
    match n
    case Obj(_) => true
    case Str(s) => s != ""
    case Num(x) => x != 0
    case Bool(b) => b
    case Null => false
    case Undefined => false
  }

  /** `n[key]`: an own property, or undefined (primitives carry no properties here). */
  function Prop(n: Node, key: string): Node {
    if n.Obj? && key in n.props then n.props[key] else Undefined
  }

  /** The result of a call that may throw a TypeError by reading a property of null or undefined. */
  datatype Outcome<T> = Returned(value: T) | Threw

  /** `s.split('.')`: the pieces between dots, at least one. */
  function Split(s: string): (r: seq<string>)
    ensures |r| >= 1
    ensures forall i :: 0 <= i < |r| ==> '.' !in r[i]
  {
    if s == [] then [""]
    else
      var rest := Split(s[1..]);
      if s[0] == '.' then [""] + rest
      else [[s[0]] + rest[0]] + rest[1..]
  }

  /** `segs.join('.')`. */
  function Join(segs: seq<string>): string
    requires |segs| >= 1
  {
    if |segs| == 1 then segs[0] else segs[0] + "." + Join(segs[1..])
  }

  /** Splitting then joining gives the path back. */
  lemma {:induction false} JoinSplit(s: string)
    ensures Join(Split(s)) == s
  {
    if s != [] {
      JoinSplit(s[1..]);
      var rest := Split(s[1..]);
      if s[0] == '.' {
        assert Split(s) == [""] + rest;
        assert ([""] + rest)[1..] == rest;
        assert s == "." + s[1..];
      } else {
        var r := Split(s);
        assert r == [[s[0]] + rest[0]] + rest[1..];
        if |rest| == 1 {
          assert s == [s[0]] + s[1..];
        } else {
          assert r[1..] == rest[1..];
          assert Join(rest) == rest[0] + "." + Join(rest[1..]);
          assert s == [s[0]] + s[1..];
        }
      }
    }
  }

  lemma {:induction false} SplitWord(w: string)
    requires '.' !in w
    ensures Split(w) == [w]
  {
    if w != [] {
      SplitWord(w[1..]);
      assert w == [w[0]] + w[1..];
    }
  }

  lemma {:induction false} SplitCons(w: string, t: string)
    requires '.' !in w
    ensures Split(w + "." + t) == [w] + Split(t)
  {
    if w == [] {
      assert w + "." + t == "." + t;
      assert ("." + t)[1..] == t;
    } else {
      SplitCons(w[1..], t);
      assert (w + "." + t)[1..] == w[1..] + "." + t;
      assert w == [w[0]] + w[1..];
    }
  }

  /** Joining dot-free pieces then splitting gives the pieces back. */
  lemma {:induction false} SplitJoin(segs: seq<string>)
    requires |segs| >= 1
    requires forall i :: 0 <= i < |segs| ==> '.' !in segs[i]
    ensures Split(Join(segs)) == segs
  {
    if |segs| == 1 {
      SplitWord(segs[0]);
    } else {
      SplitJoin(segs[1..]);
      SplitCons(segs[0], Join(segs[1..]));
      assert segs == [segs[0]] + segs[1..];
    }
  }

  /** What `set` returns, and what the target becomes. */
  datatype SetResult =
    | NotSet                            // falsy target: returns undefined, nothing changes
    | Stored(root: Node, parent: Node)  // returns `parent`; the target now reads as `root`
    | SetThrew                          // a TypeError; nothing was changed before it

  /**
   * The walk of `set` down `keys` (the path without its last piece) and the
   * final store of `value` under `last`. A missing or falsy intermediate
   * property is replaced by a new empty object; a truthy primitive is
   * stepped into, which discards writes to it and reads undefined from it.
   * Each level keeps every property other than the one on the path.
   */
  function SetAlong(target: Node, keys: seq<string>, last: string, value: Node): (r: SetResult)
    decreases |keys|
    ensures !r.NotSet?
    ensures r.Stored? && target.Obj? ==>
      var key := if keys == [] then last else keys[0];
      && r.root.Obj?
      && r.root.props.Keys == target.props.Keys + {key}
      && (forall k :: k in target.props && k != key ==> r.root.props[k] == target.props[k])
    ensures r.Stored? && !target.Obj? ==> r.root == target && r.parent == target
  {
    if keys == [] then
      match target
      case Obj(props) => Stored(Obj(props[last := value]), Obj(props[last := value]))
      case Null => SetThrew
      case Undefined => SetThrew
      case _ => Stored(target, target)
    else
      match target
      case Obj(props) =>
        var child := if Truthy(Prop(target, keys[0])) then props[keys[0]] else Obj(map[]);
        (match SetAlong(child, keys[1..], last, value)
         case Stored(c, parent) => Stored(Obj(props[keys[0] := c]), parent)
         case other => other)
      case Null => SetThrew
      case Undefined => SetThrew
      case _ => SetAlong(Undefined, keys[1..], last, value)
  }

  /** The path without its last piece, and its last piece. */
  function PathKeys(path: string): seq<string> {
    var segs := Split(path);
    segs[..|segs| - 1]
  }

  function PathLast(path: string): string {
    var segs := Split(path);
    segs[|segs| - 1]
  }

  /** `Keypath.set(target, path, value)`. */
  function Set(target: Node, path: string, value: Node): (r: SetResult)
    ensures r.NotSet? <==> !Truthy(target)
  {
    if !Truthy(target) then NotSet
    else SetAlong(target, PathKeys(path), PathLast(path), value)
  }

  /**
   * The reference traversal behind `get` and `has`: Some(node) when every
   * piece is an own property along the way, None as soon as one is not,
   * and a TypeError when a piece is read from null or undefined.
   */
  function Find(n: Node, segs: seq<string>): Outcome<Option<Node>>
    decreases |segs|
  {
    if segs == [] then Returned(Some(n))
    else
      match n
      case Null => Threw
      case Undefined => Threw
      case Obj(props) => if segs[0] in props then Find(props[segs[0]], segs[1..]) else Returned(None)
      case _ => Returned(None)
  }

  /** What `Keypath.get(target, path, defaultValue)` returns. */
  function Lookup(target: Node, path: string, defaultValue: Node): Outcome<Node> {
    if !Truthy(target) || path == "" then Returned(Bool(false))
    else
      match Find(target, Split(path))
      case Threw => Threw
      case Returned(None) => Returned(defaultValue)
      case Returned(Some(v)) => Returned(v)
  }

  /**
   * `Keypath.get`: false for a falsy target or an empty path; otherwise it
   * walks the pieces, returning `defaultValue` at the first piece that is
   * not an own property and the node reached after the last one.
   */
  method Get(target: Node, path: string, defaultValue: Node) returns (r: Outcome<Node>)
    ensures r == Lookup(target, path, defaultValue)
  {
    if !Truthy(target) || path == "" {
      return Returned(Bool(false));
    }
    var segs := Split(path);
    var t := target;
    var i := 0;
    while i < |segs|
      invariant 0 <= i <= |segs|
      invariant Find(target, segs) == Find(t, segs[i..])
    {
      var p := segs[i];
      if t.Null? || t.Undefined? {
        return Threw;
      }
      if t.Obj? && p in t.props {
        t := t.props[p];
      } else {
        return Returned(defaultValue);
      }
      i := i + 1;
    }
    return Returned(t);
  }

  /** The string `has` passes to `get` as the default, to detect absence. */
  const Sentinel: string := "#$#NFV#$#"

  /**
   * `Keypath.has` as written: `get` with the sentinel default, compared with
   * `!==`. It throws exactly where the intended `has` does; its only false
   * answer for a present path is a stored sentinel string, and its only true
   * answer for an absent one is a falsy target or an empty path.
   */
  function Has(target: Node, path: string): (r: Outcome<bool>)
    ensures r.Threw? <==> HasPath(target, path).Threw?
    ensures r == Returned(false) && HasPath(target, path) == Returned(true) ==>
      Find(target, Split(path)) == Returned(Some(Str(Sentinel)))
    ensures r == Returned(true) && HasPath(target, path) == Returned(false) ==>
      !Truthy(target) || path == ""
  {
    match Lookup(target, path, Str(Sentinel))
    case Threw => Threw
    case Returned(v) => Returned(v != Str(Sentinel))
  }

  /**
   * `has` as evidently intended: false for a falsy target or an empty path,
   * and otherwise true exactly when every piece is present, whatever value
   * is stored there.
   */
  function HasPath(target: Node, path: string): Outcome<bool> {
    if !Truthy(target) || path == "" then Returned(false)
    else
      match Find(target, Split(path))
      case Threw => Threw
      case Returned(found) => Returned(found.Some?)
  }

  /** The node reached by following `segs` through own properties. */
  function Descend(n: Node, segs: seq<string>): Node
    decreases |segs|
  {
    if segs == [] then n else Descend(Prop(n, segs[0]), segs[1..])
  }

  /** A piece is present at depth i: the node reached by the first i pieces is an object that has it. */
  ghost predicate PresentAt(n: Node, segs: seq<string>, i: int)
    requires 0 <= i < |segs|
  {
    Descend(n, segs[..i]).Obj? && segs[i] in Descend(n, segs[..i]).props
  }

  /** Every piece of `segs` is present along the way. */
  ghost predicate AllPresent(n: Node, segs: seq<string>) {
    forall i :: 0 <= i < |segs| ==> PresentAt(n, segs, i)
  }

  /** The traversal finds a node exactly when every piece is present, and the node found is the one reached. */
  lemma {:induction false} FoundIffPresent(n: Node, segs: seq<string>)
    ensures (Find(n, segs).Returned? && Find(n, segs).value.Some?) <==> AllPresent(n, segs)
    ensures Find(n, segs).Returned? && Find(n, segs).value.Some? ==> Find(n, segs).value.value == Descend(n, segs)
    decreases |segs|
  {
    if segs != [] {
      var c := Prop(n, segs[0]);
      FoundIffPresent(c, segs[1..]);
      assert PresentAt(n, segs, 0) <==> n.Obj? && segs[0] in n.props by {
        assert segs[..0] == [];
      }
      forall i | 1 <= i < |segs|
        ensures PresentAt(n, segs, i) <==> PresentAt(c, segs[1..], i - 1)
      {
        assert segs[..i][1..] == segs[1..][..i - 1];
        assert segs[..i][0] == segs[0];
        assert Descend(n, segs[..i]) == Descend(c, segs[1..][..i - 1]);
      }
      if AllPresent(n, segs) {
        assert PresentAt(n, segs, 0);
        forall j | 0 <= j < |segs[1..]|
          ensures PresentAt(c, segs[1..], j)
        {
          assert PresentAt(n, segs, j + 1);
        }
      }
      if Find(n, segs).Returned? && Find(n, segs).value.Some? {
        forall i | 0 <= i < |segs|
          ensures PresentAt(n, segs, i)
        {
          if i > 0 {
            assert PresentAt(c, segs[1..], i - 1);
          }
        }
      }
    }
  }

  /** `has` in its intended form is true exactly when every piece of the path is present. */
  lemma HasPathIff(target: Node, path: string)
    ensures HasPath(target, path) == Returned(true) <==>
      Truthy(target) && path != "" && AllPresent(target, Split(path))
  {
    var segs := Split(path);
    FoundIffPresent(target, segs);
    if Truthy(target) && path != "" {
      match Find(target, segs)
      case Threw =>
        assert HasPath(target, path) == Threw;
      case Returned(found) =>
        assert HasPath(target, path) == Returned(found.Some?);
    }
  }

  /** As written, `has` on a falsy target or an empty path answers true: `get` returns false there, not the sentinel. */
  lemma HasFalsyTargetAsWritten()
    ensures Has(Null, "a") == Returned(true) && HasPath(Null, "a") == Returned(false)
    ensures Has(Obj(map["a" := Num(1)]), "") == Returned(true)
    ensures HasPath(Obj(map["a" := Num(1)]), "") == Returned(false)
  {
  }

  /** As written, `has` answers false when the stored value is the sentinel string itself. */
  lemma HasSentinelAsWritten()
    ensures Has(Obj(map["a" := Str(Sentinel)]), "a") == Returned(false)
    ensures HasPath(Obj(map["a" := Str(Sentinel)]), "a") == Returned(true)
  {
    SplitWord("a");
    var t := Obj(map["a" := Str(Sentinel)]);
    assert Find(t, ["a"]) == Find(Str(Sentinel), []);
    assert Lookup(t, "a", Str(Sentinel)) == Returned(Str(Sentinel));
  }

  /** Away from those two cases the written and the intended `has` agree. */
  lemma HasAgreesOtherwise(target: Node, path: string)
    requires Truthy(target) && path != ""
    requires Find(target, Split(path)) != Returned(Some(Str(Sentinel)))
    ensures Has(target, path) == HasPath(target, path)
  {
  }

  /** `set` ends with a store into an object exactly when every truthy node on the way is an object. */
  predicate Writable(n: Node, keys: seq<string>)
    decreases |keys|
  {
    n.Obj? && (keys == [] || !Truthy(Prop(n, keys[0])) || Writable(Prop(n, keys[0]), keys[1..]))
  }

  lemma {:induction false} WritableIff(target: Node, keys: seq<string>, last: string, value: Node)
    ensures (SetAlong(target, keys, last, value).Stored? && SetAlong(target, keys, last, value).parent.Obj?)
            <==> Writable(target, keys)
    decreases |keys|
  {
    if keys != [] {
      if target.Obj? {
        var p := Prop(target, keys[0]);
        if Truthy(p) {
          WritableIff(p, keys[1..], last, value);
        } else {
          WritableIff(Obj(map[]), keys[1..], last, value);
          if keys[1..] != [] {
            assert Prop(Obj(map[]), keys[1..][0]) == Undefined;
          }
        }
      } else if !(target.Null? || target.Undefined?) {
        assert SetAlong(target, keys, last, value) == SetAlong(Undefined, keys[1..], last, value);
      }
    }
  }

  /** After a store into an object, the whole path leads to the value and its prefix to the returned parent. */
  lemma {:induction false} StoredIsFound(target: Node, keys: seq<string>, last: string, value: Node)
    requires SetAlong(target, keys, last, value).Stored? && SetAlong(target, keys, last, value).parent.Obj?
    ensures var r := SetAlong(target, keys, last, value);
      && Find(r.root, keys + [last]) == Returned(Some(value))
      && Find(r.root, keys) == Returned(Some(r.parent))
      && last in r.parent.props && r.parent.props[last] == value
    decreases |keys|
  {
    if keys != [] && target.Obj? {
      var child := if Truthy(Prop(target, keys[0])) then target.props[keys[0]] else Obj(map[]);
      StoredIsFound(child, keys[1..], last, value);
      assert (keys + [last])[1..] == keys[1..] + [last];
    }
  }

  /**
   * The round trip: after `set(t, p, v)` has stored into an object, `get`
   * on the updated target returns `v` and `has` (as intended) is true; the
   * value returned by `set` is the parent reached by the path's prefix.
   */
  lemma SetThenGet(target: Node, path: string, value: Node, defaultValue: Node)
    requires path != ""
    requires Set(target, path, value).Stored? && Set(target, path, value).parent.Obj?
    ensures Lookup(Set(target, path, value).root, path, defaultValue) == Returned(value)
    ensures HasPath(Set(target, path, value).root, path) == Returned(true)
    ensures Find(Set(target, path, value).root, PathKeys(path)) == Returned(Some(Set(target, path, value).parent))
  {
    var segs := Split(path);
    assert segs == PathKeys(path) + [PathLast(path)];
    StoredIsFound(target, PathKeys(path), PathLast(path), value);
  }

  /** `q` leaves the path `s` at some piece, after following only existing objects shared with it. */
  ghost predicate Diverges(n: Node, s: seq<string>, q: seq<string>)
    decreases |s|
  {
    n.Obj? && |s| >= 1 && |q| >= 1 &&
    (q[0] != s[0] || (s[0] in n.props && n.props[s[0]].Obj? && Diverges(n.props[s[0]], s[1..], q[1..])))
  }

  /**
   * Paths that leave the written path at an existing object read the same
   * before and after `set`: set changes nothing outside its path.
   */
  lemma {:induction false} SetLeavesOtherPaths(target: Node, keys: seq<string>, last: string, value: Node, q: seq<string>)
    requires SetAlong(target, keys, last, value).Stored?
    requires Diverges(target, keys + [last], q)
    ensures Find(SetAlong(target, keys, last, value).root, q) == Find(target, q)
    decreases |keys|
  {
    var s := keys + [last];
    if q[0] == s[0] && keys != [] {
      assert s[1..] == keys[1..] + [last];
      var child := target.props[keys[0]];
      SetLeavesOtherPaths(child, keys[1..], last, value, q[1..]);
    }
  }
}
