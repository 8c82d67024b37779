/** Python dictionaries from emotion label to score, as the core uses them: insertion-ordered,
    one entry per label, assignment to an existing label keeps its position. */
module Dicts {

  /** One `(emotion, score)` item of a dictionary. */
  datatype Entry = Entry(emotion: string, score: real)

  predicate Distinct(d: seq<Entry>)
  {
    forall i, j :: 0 <= i < j < |d| ==> d[i].emotion != d[j].emotion
  }

  /** A dictionary: its items in insertion order, each label at most once. */
  type Dict = d: seq<Entry> | Distinct(d) witness []

  /** `d.keys()`. */
  function Keys(d: seq<Entry>): set<string>
  {
    if d == [] then {} else {d[0].emotion} + Keys(d[1..])
  }

  /** A label is a key exactly when some item carries it. */
  lemma {:induction false} KeysIndex(d: seq<Entry>, l: string)
    ensures l in Keys(d) <==> exists i :: 0 <= i < |d| && d[i].emotion == l
  {
    if d != [] {
      KeysIndex(d[1..], l);
      if l in Keys(d[1..]) {
        var i :| 0 <= i < |d| - 1 && d[1..][i].emotion == l;
        assert d[i + 1].emotion == l;
      }
      if exists i :: 0 <= i < |d| && d[i].emotion == l {
        var i :| 0 <= i < |d| && d[i].emotion == l;
        if i > 0 { assert d[1..][i - 1].emotion == l; }
      }
    }
  }

  /** `d.get(l, dflt)`. */
  function Get(d: Dict, l: string, dflt: real): (v: real)
    ensures l !in Keys(d) ==> v == dflt
    ensures forall i :: 0 <= i < |d| && d[i].emotion == l ==> v == d[i].score
  {
    if d == [] then dflt
    else if d[0].emotion == l then d[0].score
    else Get(d[1..], l, dflt)
  }

  /** `d[l] = v`: an existing emotion keeps its place and takes the new value;
      a new emotion goes at the end. */
  function Set(d: Dict, l: string, v: real): (r: Dict)
    ensures Keys(r) == Keys(d) + {l}
    ensures l in Keys(d) ==> |r| == |d|
    ensures l in Keys(d) ==>
      forall i :: 0 <= i < |d| ==> r[i] == if d[i].emotion == l then Entry(l, v) else d[i]
    ensures l !in Keys(d) ==> r == d + [Entry(l, v)]
  {
    if d == [] then [Entry(l, v)]
    else if d[0].emotion == l then
      DistinctHead(d);
      ConsDistinct(Entry(l, v), d[1..]);
      KeysCons(Entry(l, v), d[1..]);
      [Entry(l, v)] + d[1..]
    else
      var rest := Set(d[1..], l, v);
      DistinctHead(d);
      ConsDistinct(d[0], rest);
      KeysCons(d[0], rest);
      [d[0]] + rest
  }

  lemma DistinctHead(t: seq<Entry>)
    requires Distinct(t) && t != []
    ensures Distinct(t[1..]) && t[0].emotion !in Keys(t[1..])
  {
    KeysIndex(t[1..], t[0].emotion);
    forall i | 0 <= i < |t| - 1 ensures t[1..][i].emotion != t[0].emotion {
      assert t[1..][i] == t[i + 1];
    }
  }

  lemma ConsDistinct(x: Entry, t: seq<Entry>)
    requires Distinct(t) && x.emotion !in Keys(t)
    ensures Distinct([x] + t)
  {
    KeysIndex(t, x.emotion);
    var r := [x] + t;
    forall i, j | 0 <= i < j < |r| ensures r[i].emotion != r[j].emotion {
      assert r[j] == t[j - 1];
      if i > 0 { assert r[i] == t[i - 1]; }
    }
  }

  /** The keys of an item followed by more items. */
  lemma KeysCons(x: Entry, t: seq<Entry>)
    ensures Keys([x] + t) == {x.emotion} + Keys(t)
  {
    assert ([x] + t)[1..] == t;
  }

  /** The dictionary laws: after `d[l] = v`, `l` reads back as `v` and every other
      label reads as before. */
  lemma {:induction false} SetGet(d: Dict, l: string, v: real, k: string, dflt: real)
    ensures Get(Set(d, l, v), l, dflt) == v
    ensures k != l ==> Get(Set(d, l, v), k, dflt) == Get(d, k, dflt)
  {
    if d != [] && d[0].emotion != l {
      var r := Set(d, l, v);
      assert r[1..] == Set(d[1..], l, v);
      SetGet(d[1..], l, v, k, dflt);
    }
  }

  /** `list(d)`: the labels in insertion order. */
  function Labels(d: seq<Entry>): seq<string>
  {
    if d == [] then [] else [d[0].emotion] + Labels(d[1..])
  }

  lemma {:induction false} KeysLabels(d: seq<Entry>, l: string)
    ensures l in Keys(d) <==> l in Labels(d)
  {
    if d != [] {
      KeysLabels(d[1..], l);
    }
  }

  lemma {:induction false} LabelsSnoc(d: seq<Entry>, e: Entry)
    ensures Labels(d + [e]) == Labels(d) + [e.emotion]
  {
    if d != [] {
      assert (d + [e])[1..] == d[1..] + [e];
      LabelsSnoc(d[1..], e);
    }
  }

  /** The order of the keys after `d[l] = v`: unchanged for an existing label, which keeps
      its place; a new label comes last. */
  lemma {:induction false} SetLabels(d: Dict, l: string, v: real)
    ensures Labels(Set(d, l, v)) == if l in Keys(d) then Labels(d) else Labels(d) + [l]
  {
    if d != [] {
      if d[0].emotion == l {
        assert ([Entry(l, v)] + d[1..])[1..] == d[1..];
      } else {
        var rest := Set(d[1..], l, v);
        assert ([d[0]] + rest)[1..] == rest;
        SetLabels(d[1..], l, v);
      }
    }
  }
}
