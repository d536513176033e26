/** The fitted one-hot encoder with `handle_unknown="ignore"`, as
    app.py's `OHE` and `prepare_context` use it: one block per categorical
    column, as wide as the list of categories recorded for that column at
    fit time. */
module OneHotEncoding {
  import opened Common

  /** Categories recorded at fit time, one list per categorical column. */
  type Categories = seq<seq<string>>

  predicate Distinct(cs: seq<string>)
  {
    forall i, j :: 0 <= i < j < |cs| ==> cs[i] != cs[j]
  }

  /** A fitted encoder lists each column's categories once. */
  predicate ValidEncoder(enc: Categories)
  {
    forall k :: 0 <= k < |enc| ==> Distinct(enc[k])
  }

  /** The block of one value: 1 where the category matches, 0 elsewhere. */
  function OneHot(categories: seq<string>, v: string): (block: seq<real>)
    ensures |block| == |categories|
    ensures forall i :: 0 <= i < |categories| ==> block[i] == (if categories[i] == v then 1.0 else 0.0)
  {
    seq(|categories|, i requires 0 <= i < |categories| => if categories[i] == v then 1.0 else 0.0)
  }

  /** A value seen at fit time lights exactly its own position; a value not
      seen is an all-zero block of the same width. */
  lemma OneHotMeaning(categories: seq<string>, v: string)
    requires Distinct(categories)
    ensures v !in categories ==> forall i :: 0 <= i < |categories| ==> OneHot(categories, v)[i] == 0.0
    ensures forall i :: 0 <= i < |categories| && categories[i] == v ==>
              OneHot(categories, v)[i] == 1.0 &&
              forall j :: 0 <= j < |categories| && j != i ==> OneHot(categories, v)[j] == 0.0
  {
  }

  /** Total width of the one-hot blocks. */
  function Width(enc: Categories): nat
  {
    if enc == [] then 0 else Width(enc[..|enc| - 1]) + |enc[|enc| - 1]|
  }

  /** `encoder.transform(...)` on one row: the blocks of every column, in
      column order. */
  function Encode(enc: Categories, values: seq<string>): (v: seq<real>)
    requires |values| == |enc|
    ensures |v| == Width(enc)
  {
    if enc == [] then []
    else Encode(enc[..|enc| - 1], values[..|values| - 1]) + OneHot(enc[|enc| - 1], values[|values| - 1])
  }

  /** Unseen values in every column give the all-zero vector of full width. */
  lemma {:induction false} EncodeUnseen(enc: Categories, values: seq<string>)
    requires |values| == |enc|
    requires forall k :: 0 <= k < |enc| ==> values[k] !in enc[k]
    ensures forall i :: 0 <= i < Width(enc) ==> Encode(enc, values)[i] == 0.0
  {
    if enc != [] {
      var n := |enc| - 1;
      EncodeUnseen(enc[..n], values[..n]);
    }
  }

  /** Scenario: the inventory categories as a fitted encoder stores them
      (sorted: `[decent, high, low]`), value `low`. */
  lemma InventoryExample()
    ensures OneHot(["decent", "high", "low"], "low") == [0.0, 0.0, 1.0]
    ensures OneHot(["decent", "high", "low"], "unknown") == [0.0, 0.0, 0.0]
  {
  }

  /** `get_feature_names_out`: `<column>_<category>` for each block entry. */
  function EncodedNames(columns: seq<string>, enc: Categories): (names: seq<string>)
    requires |columns| == |enc|
    ensures |names| == Width(enc)
  {
    if enc == [] then []
    else
      var n := |enc| - 1;
      EncodedNames(columns[..n], enc[..n])
        + seq(|enc[n]|, i requires 0 <= i < |enc[n]| => columns[n] + "_" + enc[n][i])
  }

  /** `df[cols].to_numpy()` on one row: the named numeric columns in order;
      `None` when a column is missing (pandas raises a KeyError). */
  function NumericColumns(row: Record, cols: seq<string>): (v: Option<seq<real>>)
    ensures v.Some? <==> forall i :: 0 <= i < |cols| ==> cols[i] in row.nums
    ensures v.Some? ==> |v.value| == |cols|
    ensures v.Some? ==> forall i :: 0 <= i < |cols| ==> v.value[i] == row.nums[cols[i]]
  {
    if forall i :: 0 <= i < |cols| ==> cols[i] in row.nums
    then Some(seq(|cols|, i requires 0 <= i < |cols| => row.nums[cols[i]]))
    else None
  }

  /** `df[cats]` on one row: the categorical values in order, or `None`. */
  function CategoricalColumns(row: Record, cats: seq<string>): (v: Option<seq<string>>)
    ensures v.Some? <==> forall i :: 0 <= i < |cats| ==> cats[i] in row.strs
    ensures v.Some? ==> |v.value| == |cats|
    ensures v.Some? ==> forall i :: 0 <= i < |cats| ==> v.value[i] == row.strs[cats[i]]
  {
    if forall i :: 0 <= i < |cats| ==> cats[i] in row.strs
    then Some(seq(|cats|, i requires 0 <= i < |cats| => row.strs[cats[i]]))
    else None
  }

  /** `prepare_context`: the one-hot block of the categorical columns
      followed by the numeric columns, or `None` when a column is missing. */
  function PrepareContext(enc: Categories, row: Record, cats: seq<string>, extraCols: seq<string>)
    : (ctx: Option<seq<real>>)
    requires |cats| == |enc|
    ensures ctx.Some? <==> CategoricalColumns(row, cats).Some? && NumericColumns(row, extraCols).Some?
    ensures ctx.Some? ==>
              |ctx.value| == Width(enc) + |extraCols| &&
              ctx.value[..Width(enc)] == Encode(enc, CategoricalColumns(row, cats).value) &&
              ctx.value[Width(enc)..] == NumericColumns(row, extraCols).value
  {
    match (CategoricalColumns(row, cats), NumericColumns(row, extraCols))
    case (Some(a), Some(b)) => Some(Encode(enc, a) + b)
    case _ => None
  }

  /** With every categorical value unseen at fit time the block is all
      zeros, and the context keeps its full width. */
  lemma ContextOfUnseen(enc: Categories, row: Record, cats: seq<string>, extraCols: seq<string>)
    requires |cats| == |enc|
    requires PrepareContext(enc, row, cats, extraCols).Some?
    requires forall k :: 0 <= k < |enc| ==> row.strs[cats[k]] !in enc[k]
    ensures |PrepareContext(enc, row, cats, extraCols).value| == Width(enc) + |extraCols|
    ensures forall i :: 0 <= i < Width(enc) ==> PrepareContext(enc, row, cats, extraCols).value[i] == 0.0
  {
    var ctx := PrepareContext(enc, row, cats, extraCols).value;
    var values := CategoricalColumns(row, cats).value;
    EncodeUnseen(enc, values);
    forall i | 0 <= i < Width(enc) ensures ctx[i] == 0.0 {
      assert ctx[i] == ctx[..Width(enc)][i];
    }
  }
}
