/**
  Feature encoding: each field of a log row gets its own block of ids, built
  from the training rows, with one slot at the end for unseen values.
 */
module Encoder {
  import opened Interaction
  import FM = FactorizationMachine

  /** One log row; the day it belongs to has already picked its split. */
  datatype LogRow = LogRow(user: string, video: string, author: string, tab: string, duration: real, longView: int)

  datatype Value = Text(text: string) | Bucket(index: nat)

  const FIELDS: nat := 5

  /** `np.searchsorted(edges, d)`: how many edges lie below d. */
  function SearchSorted(edges: seq<real>, d: real): nat
  {
    if edges == [] then 0 else (if edges[0] < d then 1 else 0) + SearchSorted(edges[1..], d)
  }

  function Raw(x: LogRow, edges: seq<real>): (v: seq<Value>)
    ensures |v| == FIELDS
  {
    [Text(x.user), Text(x.video), Text(x.author), Text(x.tab), Bucket(SearchSorted(edges, x.duration))]
  }

  /** Field i is column i: user, video, author, tab, and the bucket of the duration. */
  lemma RawTells(x: LogRow, y: LogRow, edges: seq<real>)
    ensures Raw(x, edges)[0] == Raw(y, edges)[0] <==> x.user == y.user
    ensures Raw(x, edges)[1] == Raw(y, edges)[1] <==> x.video == y.video
    ensures Raw(x, edges)[2] == Raw(y, edges)[2] <==> x.author == y.author
    ensures Raw(x, edges)[3] == Raw(y, edges)[3] <==> x.tab == y.tab
    ensures Raw(x, edges)[4] == Raw(y, edges)[4] <==> SearchSorted(edges, x.duration) == SearchSorted(edges, y.duration)
  {}

  ghost predicate Ascending(edges: seq<real>)
  {
    forall i, j :: 0 <= i < j < |edges| ==> edges[i] <= edges[j]
  }

  /** With ascending edges a duration falls into the bucket between the last edge below it and the next one. */
  lemma {:induction false} BucketBetweenEdges(edges: seq<real>, d: real)
    requires Ascending(edges)
    ensures var b := SearchSorted(edges, d);
      && b <= |edges|
      && (forall i :: 0 <= i < b ==> edges[i] < d)
      && (forall i :: b <= i < |edges| ==> d <= edges[i])
  {
    if edges != [] {
      BucketBetweenEdges(edges[1..], d);
      if d <= edges[0] {
        NoneBelow(edges, d);
      }
    }
  }

  lemma {:induction false} NoneBelow(edges: seq<real>, d: real)
    requires forall i :: 0 <= i < |edges| ==> d <= edges[i]
    ensures SearchSorted(edges, d) == 0
  {
    if edges != [] {
      NoneBelow(edges[1..], d);
    }
  }

  type Vocab = map<Value, nat>

  // ---- the vocabularies as a function of the training rows ----------------

  function AddWord(vocab: Vocab, v: Value): Vocab
  {
    if v in vocab then vocab else vocab[v := |vocab|]
  }

  /** The vocabulary of field i: values numbered in order of first appearance. */
  function VocabOf(train: seq<LogRow>, edges: seq<real>, i: nat): Vocab
    requires i < FIELDS
  {
    if train == [] then map[]
    else
      var n := |train| - 1;
      AddWord(VocabOf(train[..n], edges, i), Raw(train[n], edges)[i])
  }

  /** The block of field i: its known values and the slot for unseen ones. */
  function FieldDim(train: seq<LogRow>, edges: seq<real>, i: nat): nat
    requires i < FIELDS
  {
    |VocabOf(train, edges, i)| + 1
  }

  /** Where the block of field i starts. */
  function Offset(train: seq<LogRow>, edges: seq<real>, i: nat): nat
    requires i <= FIELDS
  {
    if i == 0 then 0 else Offset(train, edges, i - 1) + FieldDim(train, edges, i - 1)
  }

  function Dim(train: seq<LogRow>, edges: seq<real>): nat
  {
    Offset(train, edges, FIELDS)
  }

  /** `vocab.get(v, unk) + offset`. */
  function Lookup(vocab: Vocab, offset: nat, v: Value): nat
  {
    (if v in vocab then vocab[v] else |vocab|) + offset
  }

  function Code(train: seq<LogRow>, edges: seq<real>, i: nat, v: Value): nat
    requires i < FIELDS
  {
    Lookup(VocabOf(train, edges, i), Offset(train, edges, i), v)
  }

  function EncodeRow(train: seq<LogRow>, edges: seq<real>, x: LogRow): (ids: seq<nat>)
    ensures |ids| == FIELDS
    ensures forall i :: 0 <= i < FIELDS ==> ids[i] == Code(train, edges, i, Raw(x, edges)[i])
  {
    seq(FIELDS, i requires 0 <= i < FIELDS => Code(train, edges, i, Raw(x, edges)[i]))
  }

  // ---- the algorithm --------------------------------------------------------

  method BuildVocabs(train: seq<LogRow>, edges: seq<real>) returns (vocabs: seq<Vocab>)
    ensures |vocabs| == FIELDS
    ensures forall i :: 0 <= i < FIELDS ==> vocabs[i] == VocabOf(train, edges, i)
  {
    vocabs := seq(FIELDS, _ => map[]);
    for n := 0 to |train|
      invariant |vocabs| == FIELDS
      invariant forall i :: 0 <= i < FIELDS ==> vocabs[i] == VocabOf(train[..n], edges, i)
    {
      var raw := Raw(train[n], edges);
      assert train[..n + 1][..n] == train[..n];
      for i := 0 to FIELDS
        invariant |vocabs| == FIELDS
        invariant forall j :: 0 <= j < FIELDS ==>
          vocabs[j] == if j < i then VocabOf(train[..n + 1], edges, j) else VocabOf(train[..n], edges, j)
      {
        var v := raw[i];
        if v !in vocabs[i] {
          var vocab: Vocab := vocabs[i][v := |vocabs[i]|];
          vocabs := vocabs[i := vocab];
        }
      }
    }
    assert train[..|train|] == train;
  }

  /** `np.cumsum([0] + field_dims[:-1])`, and the sum of all the dimensions. */
  method Offsets(train: seq<LogRow>, edges: seq<real>, vocabs: seq<Vocab>) returns (offsets: seq<nat>, dim: nat)
    requires |vocabs| == FIELDS
    requires forall i :: 0 <= i < FIELDS ==> vocabs[i] == VocabOf(train, edges, i)
    ensures |offsets| == FIELDS && dim == Dim(train, edges)
    ensures forall i :: 0 <= i < FIELDS ==> offsets[i] == Offset(train, edges, i)
  {
    offsets, dim := [], 0;
    for i := 0 to FIELDS
      invariant |offsets| == i && dim == Offset(train, edges, i)
      invariant forall j :: 0 <= j < i ==> offsets[j] == Offset(train, edges, j)
    {
      offsets := offsets + [dim];
      dim := dim + |vocabs[i]| + 1;
    }
  }

  /** Fills the id table, the labels and the users of one split. */
  method EncodeSplit(train: seq<LogRow>, edges: seq<real>, vocabs: seq<Vocab>, offsets: seq<nat>, rows: seq<LogRow>)
    returns (X: array2<nat>, y: array<real>, users: seq<string>)
    requires |vocabs| == |offsets| == FIELDS
    requires forall i :: 0 <= i < FIELDS ==> vocabs[i] == VocabOf(train, edges, i)
    requires forall i :: 0 <= i < FIELDS ==> offsets[i] == Offset(train, edges, i)
    ensures fresh(X) && X.Length0 == |rows| && X.Length1 == FIELDS
    ensures fresh(y) && y.Length == |rows| == |users|
    ensures forall n, i :: 0 <= n < |rows| && 0 <= i < FIELDS ==> X[n, i] == EncodeRow(train, edges, rows[n])[i]
    ensures forall n :: 0 <= n < |rows| ==> y[n] == rows[n].longView as real && users[n] == rows[n].user
  {
    hide Raw, Offset, VocabOf, Lookup;
    X := new nat[|rows|, FIELDS]((_, _) => 0);
    y := new real[|rows|](_ => 0.0);
    users := [];
    for n := 0 to |rows|
      invariant |users| == n
      invariant forall m, i :: 0 <= m < n && 0 <= i < FIELDS ==> X[m, i] == EncodeRow(train, edges, rows[m])[i]
      invariant forall m :: 0 <= m < n ==> y[m] == rows[m].longView as real && users[m] == rows[m].user
    {
      var raw := Raw(rows[n], edges);
      for i := 0 to FIELDS
        invariant forall m, j :: 0 <= m < n && 0 <= j < FIELDS ==> X[m, j] == EncodeRow(train, edges, rows[m])[j]
        invariant forall j :: 0 <= j < i ==> X[n, j] == EncodeRow(train, edges, rows[n])[j]
        invariant forall m :: 0 <= m < n ==> y[m] == rows[m].longView as real
      {
        X[n, i] := Lookup(vocabs[i], offsets[i], raw[i]);
      }
      y[n] := rows[n].longView as real;
      users := users + [rows[n].user];
    }
  }

  // ---- what the encoding guarantees --------------------------------------------

  /** A vocabulary numbers its words 0, 1, 2, ... without gaps or repeats. */
  ghost predicate Numbered(vocab: Vocab)
  {
    && (forall v :: v in vocab ==> vocab[v] < |vocab|)
    && (forall v, w :: v in vocab && w in vocab && vocab[v] == vocab[w] ==> v == w)
    && (forall c: nat :: c < |vocab| ==> c in vocab.Values)
  }

  lemma AddWordNumbered(vocab: Vocab, v: Value)
    requires Numbered(vocab)
    ensures Numbered(AddWord(vocab, v))
  {
    if v !in vocab {
      var longer := vocab[v := |vocab|];
      assert longer.Keys == vocab.Keys + {v};
      assert |longer| == |vocab| + 1;
      forall c: nat | c < |longer| ensures c in longer.Values {
        if c == |vocab| {
          assert longer[v] == c;
        } else {
          assert c in vocab.Values;
          var w :| w in vocab && vocab[w] == c;
          assert longer[w] == c;
        }
      }
    }
  }

  lemma {:induction false} VocabNumbered(train: seq<LogRow>, edges: seq<real>, i: nat)
    requires i < FIELDS
    ensures Numbered(VocabOf(train, edges, i))
  {
    if train != [] {
      VocabNumbered(train[..|train| - 1], edges, i);
      AddWordNumbered(VocabOf(train[..|train| - 1], edges, i), Raw(train[|train| - 1], edges)[i]);
    }
  }

  ghost predicate Seen(train: seq<LogRow>, edges: seq<real>, i: nat, v: Value)
    requires i < FIELDS
  {
    exists n :: 0 <= n < |train| && Raw(train[n], edges)[i] == v
  }

  lemma {:induction false} VocabHoldsSeen(train: seq<LogRow>, edges: seq<real>, i: nat, v: Value)
    requires i < FIELDS
    ensures v in VocabOf(train, edges, i) <==> Seen(train, edges, i, v)
  {
    if train != [] {
      var n := |train| - 1;
      var front := train[..n];
      VocabHoldsSeen(front, edges, i, v);
      assert forall m :: 0 <= m < n ==> front[m] == train[m];
      if Seen(train, edges, i, v) && Raw(train[n], edges)[i] != v {
        var m :| 0 <= m < |train| && Raw(train[m], edges)[i] == v;
        assert Raw(front[m], edges)[i] == v;
      }
      if Seen(front, edges, i, v) {
        var m :| 0 <= m < |front| && Raw(front[m], edges)[i] == v;
        assert Raw(train[m], edges)[i] == v;
      }
    }
  }

  /** Two values of a field share a code exactly when they are equal or both unseen in training. */
  lemma SameCode(train: seq<LogRow>, edges: seq<real>, i: nat, v: Value, w: Value)
    requires i < FIELDS
    ensures Code(train, edges, i, v) == Code(train, edges, i, w)
       <==> v == w || (!Seen(train, edges, i, v) && !Seen(train, edges, i, w))
  {
    VocabNumbered(train, edges, i);
    VocabHoldsSeen(train, edges, i, v);
    VocabHoldsSeen(train, edges, i, w);
  }

  lemma CodeInBlock(train: seq<LogRow>, edges: seq<real>, i: nat, v: Value)
    requires i < FIELDS
    ensures Offset(train, edges, i) <= Code(train, edges, i, v) < Offset(train, edges, i + 1)
  {
    VocabNumbered(train, edges, i);
  }

  lemma {:induction false} OffsetsGrow(train: seq<LogRow>, edges: seq<real>, i: nat, j: nat)
    requires i <= j <= FIELDS
    ensures Offset(train, edges, i) <= Offset(train, edges, j)
  {
    if i < j {
      OffsetsGrow(train, edges, i, j - 1);
    }
  }

  /** Every id of a row is below `Dim`, and the ids of a row are all different. */
  lemma RowIdsDistinct(train: seq<LogRow>, edges: seq<real>, x: LogRow)
    ensures ValidIds(EncodeRow(train, edges, x), Dim(train, edges))
    ensures Distinct(EncodeRow(train, edges, x))
  {
    var ids := EncodeRow(train, edges, x);
    forall i | 0 <= i < FIELDS ensures ids[i] < Dim(train, edges) {
      CodeInBlock(train, edges, i, Raw(x, edges)[i]);
      OffsetsGrow(train, edges, i + 1, FIELDS);
    }
    forall i, j | 0 <= i < j < FIELDS ensures ids[i] != ids[j] {
      CodeInBlock(train, edges, i, Raw(x, edges)[i]);
      CodeInBlock(train, edges, j, Raw(x, edges)[j]);
      OffsetsGrow(train, edges, i + 1, j);
    }
  }

  lemma {:induction false} BlockOf(train: seq<LogRow>, edges: seq<real>, id: nat, n: nat) returns (i: nat)
    requires n <= FIELDS && id < Offset(train, edges, n)
    ensures i < n && Offset(train, edges, i) <= id < Offset(train, edges, i + 1)
  {
    if id < Offset(train, edges, n - 1) {
      i := BlockOf(train, edges, id, n - 1);
    } else {
      i := n - 1;
    }
  }

  /** No id lies in the blocks of two fields. */
  lemma BlocksDisjoint(train: seq<LogRow>, edges: seq<real>, id: nat, i: nat, j: nat)
    requires i < FIELDS && j < FIELDS && i != j
    requires Offset(train, edges, i) <= id < Offset(train, edges, i + 1)
    ensures !(Offset(train, edges, j) <= id < Offset(train, edges, j + 1))
  {
    if j < i {
      OffsetsGrow(train, edges, j + 1, i);
    } else {
      OffsetsGrow(train, edges, i + 1, j);
    }
  }

  /** The blocks tile [0, Dim): every id is some value's code, or its field's slot for unseen values. */
  lemma EveryIdIsUsed(train: seq<LogRow>, edges: seq<real>, id: nat) returns (i: nat)
    requires id < Dim(train, edges)
    ensures i < FIELDS && Offset(train, edges, i) <= id < Offset(train, edges, i + 1)
    ensures
      || id == Offset(train, edges, i + 1) - 1
      || exists v :: Seen(train, edges, i, v) && Code(train, edges, i, v) == id
  {
    i := BlockOf(train, edges, id, FIELDS);
    var vocab := VocabOf(train, edges, i);
    VocabNumbered(train, edges, i);
    var c := id - Offset(train, edges, i);
    if c < |vocab| {
      assert c in vocab.Values;
      var v :| v in vocab && vocab[v] == c;
      VocabHoldsSeen(train, edges, i, v);
      assert Code(train, edges, i, v) == id;
    }
  }

  function EncodeRows(train: seq<LogRow>, edges: seq<real>, rows: seq<LogRow>): seq<seq<nat>>
  {
    seq(|rows|, n requires 0 <= n < |rows| => EncodeRow(train, edges, rows[n]))
  }

  /**
    On a batch of encoded rows the gradient of the embedding table is exact: nudging
    one entry changes the weighted logits by the nudge times the scattered sum.
   */
  lemma EncodedGradientIsExact(train: seq<LogRow>, edges: seq<real>, rows: seq<LogRow>, V: seq<Vec>, W: seq<real>,
      b: real,
                               g: seq<real>, id: nat, f: nat, d: real, k: nat)
    requires IsTable(V, k) && |W| == |V| == Dim(train, edges) && |g| == |rows| && id < |V| && f < k
    ensures FM.ValidRows(EncodeRows(train, edges, rows), |V|)
    ensures FM.LossChange(V, W, b, EncodeRows(train, edges, rows), g, |rows|, id, f, d, k)
      == d * FM.GradV(V, EncodeRows(train, edges, rows), g, |rows|, id, f)
  {
    hide FM.LossChange, FM.GradV, EncodeRow, Dim, IsTable, Distinct, ValidIds;
    var X := EncodeRows(train, edges, rows);
    forall r | 0 <= r < |X| ensures ValidIds(X[r], |V|) && Distinct(X[r]) {
      RowIdsDistinct(train, edges, rows[r]);
    }
    FM.GradientIsExact(V, W, b, X, g, id, f, d, k);
  }
}
