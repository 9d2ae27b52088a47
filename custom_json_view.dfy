/** The collapsible JSON tree of src/components/CustomJsonView.jsx: the set
    of expanded node ids and its toggle, and the structure `renderValue`
    produces for a value (which nodes are open, what text leaves show). */
module CustomJsonView {
  import opened JsValue
  import opened JsText

  const DefaultCollapsed := 1
  const DefaultLevel := 0
  const MaxStringLength := 50

  // ---------------------------------------------------------------------
  // The expanded set

  /** The set after `toggleKey(key)`: the key leaves the set if it was in
      it and joins it otherwise; no other key moves. */
  function Toggled(s: set<string>, key: string): (r: set<string>)
    ensures key in r <==> key !in s
    ensures forall k :: k != key ==> (k in r <==> k in s)
  {
    if key in s then s - {key} else s + {key}
  }

  /** Toggling the same key twice gives the original set back. */
  lemma ToggleTwice(s: set<string>, key: string)
    ensures Toggled(Toggled(s, key), key) == s
  {
    var r := Toggled(Toggled(s, key), key);
    assert forall k :: k in r <==> k in s;
  }

  /** Toggles of different keys commute. */
  lemma TogglesCommute(s: set<string>, a: string, b: string)
    ensures Toggled(Toggled(s, a), b) == Toggled(Toggled(s, b), a)
  {
    var l, r := Toggled(Toggled(s, a), b), Toggled(Toggled(s, b), a);
    assert forall k :: k in l <==> k in r;
  }

  /** The component's `expandedKeys` state. */
  class JsonViewState {
    var expandedKeys: set<string>

    constructor()
      ensures expandedKeys == {}
    {
      expandedKeys := {};
    }

    /** Copies the set, adds or deletes the key in the copy, and installs
        the copy. */
    method ToggleKey(key: string)
      modifies this
      ensures expandedKeys == Toggled(old(expandedKeys), key)
    {
      var newExpanded := expandedKeys;
      if key in newExpanded {
        newExpanded := newExpanded - {key};
      } else {
        newExpanded := newExpanded + {key};
      }
      expandedKeys := newExpanded;
    }
  }

  // ---------------------------------------------------------------------
  // Leaves

  /** Strings over fifty characters show their first fifty and "...". */
  function Truncate(s: string): (r: string)
    ensures |s| <= MaxStringLength ==> r == s
    ensures |s| > MaxStringLength ==>
              |r| == MaxStringLength + 3 && r[..MaxStringLength] == s[..MaxStringLength] &&
              r[MaxStringLength..] == "..."
  {
    if |s| > MaxStringLength then s[..MaxStringLength] + "..." else s
  }

  /** A truncated string is at most 53 characters long, starts like the
      original, and truncating it again changes nothing. */
  lemma TruncateIdempotent(s: string)
    ensures |Truncate(s)| <= MaxStringLength + 3
    ensures Truncate(Truncate(s)) == Truncate(s)
    ensures |s| > MaxStringLength ==> Truncate(s)[..MaxStringLength] <= s
  {
    if |s| > MaxStringLength {
      var t := Truncate(s);
      assert t[..MaxStringLength] == s[..MaxStringLength];
    }
  }

  // ---------------------------------------------------------------------
  // The rendered tree

  /** What `renderValue` draws. A container carries its toggle id, its
      size label and whether its children are shown. */
  datatype View =
    | NullView
    | BoolView(text: string)
    | NumberView(text: string)
    | StringView(quoted: string)
    | EmptyArray
    | EmptyObject
    | Container(isArray: bool, toggleId: string, size: nat, open: bool, children: seq<Entry>)
    | Unknown(text: string)

  /** A child row: the index or key caption and the child's own view. */
  datatype Entry = Entry(caption: string, view: View)

  /** `${level}-${key}`: the level's numeral, a dash, then the key. */
  function ToggleId(level: int, key: string): (id: string)
    ensures |id| > |key| + 1 && id[|id| - |key|..] == key
    ensures id[..|id| - |key|] == IntToString(level) + "-"
  {
    var id := IntToString(level) + "-" + key;
    assert id[|id| - |key|..] == key;
    assert id[..|id| - |key|] == IntToString(level) + "-";
    id
  }

  /** A container is open when its id was expanded or its level is above the
      collapse depth. */
  predicate IsOpen(level: int, key: string, expanded: set<string>, collapsed: int): (b: bool)
    ensures level < collapsed ==> b
    ensures ToggleId(level, key) in expanded ==> b
    ensures expanded == {} ==> (b <==> level < collapsed)
  {
    ToggleId(level, key) in expanded || level < collapsed
  }

  /** `renderValue(value, key, level)` for the given expanded set and
      `collapsed` prop. */
  function Render(v: Value, key: string, level: int, expanded: set<string>, collapsed: int): (r: View)
    ensures r.Container? <==> (v.Arr? && |v.items| > 0) || (v.Obj? && |v.fields| > 0)
    ensures v.Arr? && |v.items| == 0 ==> r == EmptyArray
    ensures v.Obj? && |v.fields| == 0 ==> r == EmptyObject
    ensures v.Str? ==> r == StringView("\"" + Truncate(v.s) + "\"")
    ensures v.Null? ==> r == NullView
    ensures r.Container? ==>
              r.isArray == v.Arr? && r.toggleId == ToggleId(level, key) &&
              r.size == KeyCount(v) &&
              (r.open <==> IsOpen(level, key, expanded, collapsed)) &&
              |r.children| == (if r.open then r.size else 0)
    ensures r.Container? && r.open && v.Arr? ==>
              forall i :: 0 <= i < |v.items| ==>
                r.children[i] == Entry(NatToString(i),
                                       Render(v.items[i], key + "-" + NatToString(i), level + 1, expanded, collapsed))
    ensures r.Container? && r.open && v.Obj? ==>
              forall i :: 0 <= i < |v.fields| ==>
                r.children[i] == Entry(v.fields[i].0,
                                       Render(v.fields[i].1, key + "-" + v.fields[i].0, level + 1, expanded, collapsed))
    decreases v
  {
    var open := IsOpen(level, key, expanded, collapsed);
    match v
    case Null => NullView
    case Bool(b) => BoolView(if b then "true" else "false")
    case Num(n) => NumberView(IntToString(n))
    case NaN => NumberView("NaN")
    case Str(s) => StringView("\"" + Truncate(s) + "\"")
    case Arr(items) =>
      if |items| == 0 then EmptyArray
      else
        Container(true, ToggleId(level, key), |items|, open,
                  if open then ArrayEntries(items, key, level, expanded, collapsed) else [])
    case Obj(fields) =>
      if |fields| == 0 then EmptyObject
      else
        Container(false, ToggleId(level, key), |fields|, open,
                  if open then ObjectEntries(fields, key, level, expanded, collapsed) else [])
    case Undefined => Unknown("undefined")
  }

  /** The rows of an open array, one per element, one level down. */
  function ArrayEntries(items: seq<Value>, key: string, level: int, expanded: set<string>, collapsed: int)
    : (es: seq<Entry>)
    ensures |es| == |items|
    decreases Arr(items), 0
  {
    seq(|items|, i requires 0 <= i < |items| =>
      Entry(NatToString(i), Render(items[i], key + "-" + NatToString(i), level + 1, expanded, collapsed)))
  }

  /** The rows of an open object, one per key in order, one level down. */
  function ObjectEntries(fields: seq<(string, Value)>, key: string, level: int, expanded: set<string>, collapsed: int)
    : (es: seq<Entry>)
    ensures |es| == |fields|
    decreases Obj(fields), 0
  {
    seq(|fields|, i requires 0 <= i < |fields| =>
      Entry(fields[i].0, Render(fields[i].1, key + "-" + fields[i].0, level + 1, expanded, collapsed)))
  }

  /** The component: the data rendered under the key "root" from
      `currentLevel`. */
  function JsonView(data: Value, expanded: set<string>, collapsed: int, currentLevel: int): (r: View)
    ensures r.Container? ==> r.toggleId == IntToString(currentLevel) + "-root"
    ensures r.Container? ==> (r.open <==> IntToString(currentLevel) + "-root" in expanded || currentLevel < collapsed)
  {
    Render(data, "root", currentLevel, expanded, collapsed)
  }

  /** Expanding a collapsed container's id opens it, and toggling it again
      closes it. */
  lemma ToggleOpens(v: Value, key: string, level: int, expanded: set<string>, collapsed: int)
    requires Render(v, key, level, expanded, collapsed).Container?
    requires !Render(v, key, level, expanded, collapsed).open
    ensures var id := Render(v, key, level, expanded, collapsed).toggleId;
            Render(v, key, level, Toggled(expanded, id), collapsed).open &&
            !Render(v, key, level, Toggled(Toggled(expanded, id), id), collapsed).open
  {
    var id := ToggleId(level, key);
    ToggleTwice(expanded, id);
  }

  // ---------------------------------------------------------------------
  // Depth of what is shown

  /** How many nested open containers the view shows. */
  function OpenDepth(r: View): nat
    decreases r
  {
    if r.Container? && r.open then 1 + MaxDepth(r.children) else 0
  }

  function MaxDepth(es: seq<Entry>): nat
    decreases es
  {
    if |es| == 0 then 0
    else
      var d, rest := OpenDepth(es[0].view), MaxDepth(es[1..]);
      if d > rest then d else rest
  }

  /** Each row is at most the deepest row, and a bound on every row bounds
      the deepest. */
  lemma {:induction false} MaxDepthBound(es: seq<Entry>, b: nat)
    requires forall i :: 0 <= i < |es| ==> OpenDepth(es[i].view) <= b
    ensures MaxDepth(es) <= b
  {
    if |es| > 0 {
      assert forall i :: 0 <= i < |es[1..]| ==> es[1..][i] == es[i + 1];
      MaxDepthBound(es[1..], b);
    }
  }

  /** With nothing expanded, the tree shows open containers only above the
      collapse depth: from `level`, at most `collapsed - level` of them. */
  lemma {:induction false} CollapsedDepth(v: Value, key: string, level: int, collapsed: int)
    ensures OpenDepth(Render(v, key, level, {}, collapsed)) <= if collapsed - level > 0 then collapsed - level else 0
    decreases v
  {
    var r := Render(v, key, level, {}, collapsed);
    var b := if collapsed - level - 1 > 0 then collapsed - level - 1 else 0;
    if r.Container? && r.open {
      if v.Arr? {
        forall i | 0 <= i < |r.children|
          ensures OpenDepth(r.children[i].view) <= b
        {
          CollapsedDepth(v.items[i], key + "-" + NatToString(i), level + 1, collapsed);
        }
      } else {
        forall i | 0 <= i < |r.children|
          ensures OpenDepth(r.children[i].view) <= b
        {
          CollapsedDepth(v.fields[i].1, key + "-" + v.fields[i].0, level + 1, collapsed);
        }
      }
      MaxDepthBound(r.children, b);
    }
  }

  /** With the default props and nothing expanded, only the root container
      is open. */
  lemma DefaultShowsOneLevel(data: Value)
    ensures OpenDepth(JsonView(data, {}, DefaultCollapsed, DefaultLevel)) <= 1
  {
    CollapsedDepth(data, "root", DefaultLevel, DefaultCollapsed);
  }

  /** Ids join keys with "-", which keys may contain themselves: under
      `{"a-b": {"c": [null]}, "a": {"b-c": [null]}}` the two innermost
      arrays, different nodes at the same level, share one toggle id, so
      expanding either expands both. */
  lemma SharedToggleId()
    ensures var inner := Arr([Null]);
            var data := Obj([("a-b", Obj([("c", inner)])), ("a", Obj([("b-c", inner)]))]);
            var r := Render(data, "root", 0, {}, 2);
            r.Container? && |r.children| == 2 &&
            r.children[0].view.Container? && |r.children[0].view.children| == 1 &&
            r.children[1].view.Container? && |r.children[1].view.children| == 1 &&
            r.children[0].view.children[0].view.Container? &&
            r.children[0].view.children[0].view.toggleId == r.children[1].view.children[0].view.toggleId
  {
    var inner := Arr([Null]);
    var left, right := Obj([("c", inner)]), Obj([("b-c", inner)]);
    var data := Obj([("a-b", left), ("a", right)]);
    assert "root" + "-" + "a-b" + "-" + "c" == "root" + "-" + "a" + "-" + "b-c";
    var r := Render(data, "root", 0, {}, 2);
    var l := Render(left, "root" + "-" + "a-b", 1, {}, 2);
    var rr := Render(right, "root" + "-" + "a", 1, {}, 2);
    assert r.children[0].view == l;
    assert r.children[1].view == rr;
    assert l.children[0].view == Render(inner, "root" + "-" + "a-b" + "-" + "c", 2, {}, 2);
    assert rr.children[0].view == Render(inner, "root" + "-" + "a" + "-" + "b-c", 2, {}, 2);
  }
}
