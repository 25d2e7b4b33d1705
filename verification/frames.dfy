/**
 * A pandas DataFrame as an ordered list of named columns. Duplicate names are
 * allowed, as in pandas; a lookup by name finds the first column of that name.
 */
module Frames {
  import opened Numeric

  datatype Column<T> = Column(name: string, cells: seq<T>)

  /** A cell of a frame read from a file: a number (NaN when missing) or text. */
  datatype Cell = Num(v: Float) | Text(s: string)

  function Names<T>(t: seq<Column<T>>): (r: seq<string>)
    ensures |r| == |t| && forall i :: 0 <= i < |t| ==> r[i] == t[i].name
  {
    seq(|t|, i requires 0 <= i < |t| => t[i].name)
  }

  /** `name in df.columns`. */
  predicate Has<T>(t: seq<Column<T>>, name: string) {
    name in Names(t)
  }

  /** The position of the first column called `name`. */
  function IndexOf<T>(t: seq<Column<T>>, name: string): (k: nat)
    requires Has(t, name)
    ensures k < |t| && t[k].name == name
    ensures forall j :: 0 <= j < k ==> t[j].name != name
  {
    if t[0].name == name then 0
    else
      HasTail(t, name);
      1 + IndexOf(t[1..], name)
  }

  lemma HasTail<T>(t: seq<Column<T>>, name: string)
    requires Has(t, name) && t[0].name != name
    ensures Has(t[1..], name)
  {
    assert Names(t) == [t[0].name] + Names(t[1..]);
  }

  /** `df[name]`. */
  function Get<T>(t: seq<Column<T>>, name: string): seq<T>
    requires Has(t, name)
  {
    t[IndexOf(t, name)].cells
  }

  /** `df[name] = cells`: the column of that name is replaced, or a new one is appended. */
  function Set<T>(t: seq<Column<T>>, name: string, cells: seq<T>): (r: seq<Column<T>>)
    ensures Has(r, name) && Get(r, name) == cells
    ensures Has(t, name) ==> Names(r) == Names(t)
    ensures !Has(t, name) ==> r == t + [Column(name, cells)]
    ensures forall i :: 0 <= i < |t| && t[i].name != name ==> r[i] == t[i]
  {
    if Has(t, name) then
      var k := IndexOf(t, name);
      var r := t[k := Column(name, cells)];
      assert r[k].name == name;
      r
    else
      var r := t + [Column(name, cells)];
      assert r[|t|].name == name;
      r
  }

  /** Setting one column leaves every other column name's presence and contents as they were. */
  lemma SetOther<T>(t: seq<Column<T>>, name: string, cells: seq<T>, other: string)
    requires other != name
    ensures Has(Set(t, name, cells), other) <==> Has(t, other)
    ensures Has(t, other) ==> Get(Set(t, name, cells), other) == Get(t, other)
  {
    var r := Set(t, name, cells);
    if Has(t, name) {
      assert Names(r) == Names(t);
    } else {
      assert Names(r) == Names(t) + [name];
    }
    if Has(t, other) {
      var k := IndexOf(t, other);
      assert r[k] == t[k];
      assert forall j :: 0 <= j < k ==> r[j].name == t[j].name;
      IndexOfFirst(r, other, k);
    }
  }

  /** `df[work.columns] = work`: the columns of `work` are set one after another, first to last. */
  function WriteBack<T>(t: seq<Column<T>>, work: seq<Column<T>>): seq<Column<T>>
    decreases |work|
  {
    if work == [] then t else WriteBack(Set(t, work[0].name, work[0].cells), work[1..])
  }

  /** Writing back columns of other names leaves `c`'s presence and first column as they were. */
  lemma {:induction false} WriteBackOther<T>(t: seq<Column<T>>, work: seq<Column<T>>, c: string)
    requires forall a :: 0 <= a < |work| ==> work[a].name != c
    ensures Has(WriteBack(t, work), c) <==> Has(t, c)
    ensures Has(t, c) ==> Get(WriteBack(t, work), c) == Get(t, c)
    decreases |work|
  {
    if work != [] {
      var next := Set(t, work[0].name, work[0].cells);
      SetOther(t, work[0].name, work[0].cells, c);
      WriteBackOther(next, work[1..], c);
    }
  }

  /** When the written names are distinct, each written column reads back as written. */
  lemma {:induction false} WriteBackGet<T>(t: seq<Column<T>>, work: seq<Column<T>>, j: nat)
    requires j < |work|
    requires forall a, b :: 0 <= a < b < |work| ==> work[a].name != work[b].name
    ensures Has(WriteBack(t, work), work[j].name) && Get(WriteBack(t, work), work[j].name) == work[j].cells
    decreases |work|
  {
    var next := Set(t, work[0].name, work[0].cells);
    var rest := work[1..];
    if j == 0 {
      WriteBackOther(next, rest, work[0].name);
    } else {
      var i: nat := j - 1;
      assert rest[i] == work[j];
      WriteBackGet(next, rest, i);
    }
  }

  /** The first position holding `name` is its index. */
  lemma IndexOfFirst<T>(t: seq<Column<T>>, name: string, k: nat)
    requires k < |t| && t[k].name == name && forall j :: 0 <= j < k ==> t[j].name != name
    ensures Has(t, name) && IndexOf(t, name) == k
  {
    assert Names(t)[k] == name;
    var m := IndexOf(t, name);
    assert m >= k;
    assert t[m].name == name;
  }

  /** `df.drop(columns=[name])`: every column called `name` is removed. */
  function Drop<T>(t: seq<Column<T>>, name: string): (r: seq<Column<T>>)
    ensures !Has(r, name)
    ensures forall i :: 0 <= i < |r| ==> r[i] in t && r[i].name != name
    ensures forall i :: 0 <= i < |t| && t[i].name != name ==> t[i] in r
  {
    if t == [] then []
    else (if t[0].name == name then [] else [t[0]]) + Drop(t[1..], name)
  }

  /** Dropping one name leaves every other name's presence and first column as they were. */
  lemma {:induction false} DropKeeps<T>(t: seq<Column<T>>, name: string, other: string)
    requires other != name
    ensures Has(Drop(t, name), other) <==> Has(t, other)
    ensures Has(t, other) ==> Get(Drop(t, name), other) == Get(t, other)
  {
    if t != [] {
      var c := t[0];
      var tail := t[1..];
      assert t == [c] + tail;
      DropCons(t, name);
      DropKeeps(tail, name, other);
      ConsHas(c, tail, other);
      if c.name != name {
        ConsHas(c, Drop(tail, name), other);
      }
    }
  }

  lemma DropCons<T>(t: seq<Column<T>>, name: string)
    requires t != []
    ensures Drop(t, name) == if t[0].name == name then Drop(t[1..], name) else [t[0]] + Drop(t[1..], name)
  {
    if t[0].name == name {
      assert [] + Drop(t[1..], name) == Drop(t[1..], name);
    }
  }

  /** Lookup in a frame with one more column in front. */
  lemma ConsHas<T>(c: Column<T>, t: seq<Column<T>>, name: string)
    ensures Has([c] + t, name) <==> c.name == name || Has(t, name)
    ensures c.name == name ==> Get([c] + t, name) == c.cells
    ensures c.name != name && Has(t, name) ==> Get([c] + t, name) == Get(t, name)
  {
    var r := [c] + t;
    ConsNames(c, t);
    if c.name == name {
      IndexOfFirst(r, name, 0);
    } else if Has(t, name) {
      var k := IndexOf(t, name);
      assert r[k + 1] == t[k];
      assert forall j :: 1 <= j < k + 1 ==> r[j] == t[j - 1];
      IndexOfFirst(r, name, k + 1);
    }
  }

  /** The names of a frame with one more column in front. */
  lemma ConsNames<T>(c: Column<T>, t: seq<Column<T>>)
    ensures Names([c] + t) == [c.name] + Names(t)
  {
  }
  /** `df.rename(columns=m)`: each column whose name is a key of `m` takes the mapped name. */
  function Rename<T>(t: seq<Column<T>>, m: map<string, string>): (r: seq<Column<T>>)
    ensures |r| == |t|
    ensures forall i :: 0 <= i < |t| ==>
      r[i] == Column(if t[i].name in m then m[t[i].name] else t[i].name, t[i].cells)
  {
    seq(|t|, i requires 0 <= i < |t| =>
      Column(if t[i].name in m then m[t[i].name] else t[i].name, t[i].cells))
  }

  /** A name that `m` neither renames nor produces keeps its presence and its first column. */
  lemma RenameKeeps<T>(t: seq<Column<T>>, m: map<string, string>, c: string)
    requires c !in m && forall k :: k in m ==> m[k] != c
    ensures Has(Rename(t, m), c) <==> Has(t, c)
    ensures Has(t, c) ==> Get(Rename(t, m), c) == Get(t, c)
  {
    var r := Rename(t, m);
    assert forall i :: 0 <= i < |t| ==> (r[i].name == c <==> t[i].name == c);
    if Has(t, c) {
      var k := IndexOf(t, c);
      IndexOfFirst(r, c, k);
    }
    if Has(r, c) {
      var k := IndexOf(r, c);
      assert t[k].name == c;
    }
  }

  /** Renaming with an empty map changes nothing. */
  lemma RenameEmpty<T>(t: seq<Column<T>>)
    ensures Rename(t, map[]) == t
  {
  }

  /** `[c for c in cols if c not in df.columns]`. */
  function Missing<T>(cols: seq<string>, t: seq<Column<T>>): (r: seq<string>)
    ensures forall c :: c in r <==> c in cols && !Has(t, c)
    ensures |r| <= |cols|
  {
    if cols == [] then []
    else (if Has(t, cols[0]) then [] else [cols[0]]) + Missing(cols[1..], t)
  }

  /** Nothing is missing exactly when every listed column is present. */
  lemma MissingEmpty<T>(cols: seq<string>, t: seq<Column<T>>)
    ensures Missing(cols, t) == [] <==> forall c :: c in cols ==> Has(t, c)
  {
    if Missing(cols, t) != [] {
      assert Missing(cols, t)[0] in Missing(cols, t);
    }
  }

  /** Every column has `n` cells. */
  predicate Rectangular<T>(t: seq<Column<T>>, n: nat) {
    forall i :: 0 <= i < |t| ==> |t[i].cells| == n
  }

  /** A frame that the source mutates in place (`df[...] = ...`, `drop(..., inplace=True)`). */
  class DataFrame<T> {
    var columns: seq<Column<T>>

    constructor (cols: seq<Column<T>>)
      ensures columns == cols
    {
      columns := cols;
    }
  }
}
