/** The two maps the reconciliation engine diffs: the local one, built from
    reader rows and validated against the remote store's limits, and the
    remote one, built from the listed dictionary items. */
module DictionaryRows {
  import opened Errors

  /** A dictionary holds at most this many items. */
  const MaxItems := 1000
  /** Key and value limits, in bytes (Go's `len` on a string). */
  const MaxKeyLength := 256
  const MaxValueLength := 8000

  /** A remote dictionary item as listed by the API. */
  datatype DictionaryItem = DictionaryItem(itemKey: string, itemValue: string)

  /** Bytes taken by one character in UTF-8. */
  function Utf8Width(c: char): (w: nat)
    ensures 1 <= w <= 4
  {
    if c as int < 0x80 then 1
    else if c as int < 0x800 then 2
    else if c as int < 0x1_0000 then 3
    else 4
  }

  /** Length of `s` in bytes once encoded as UTF-8, which is what Go's `len`
      returns for a string. */
  function ByteLen(s: string): (n: nat)
    ensures |s| <= n <= 4 * |s|
  {
    if s == [] then 0 else Utf8Width(s[0]) + ByteLen(s[1..])
  }

  /** validateItem: the key limit is checked before the value limit. Since
      the limits count bytes, a short key always passes and a long one always
      fails, whatever its characters. */
  function ValidateItem(key: string, value: string): (r: Option<Error>)
    ensures r == None <==> ByteLen(key) <= MaxKeyLength && ByteLen(value) <= MaxValueLength
    ensures ByteLen(key) > MaxKeyLength ==> r == Some(KeyTooLong(key))
    ensures ByteLen(key) <= MaxKeyLength && ByteLen(value) > MaxValueLength ==> r == Some(ValueTooLong(key, value))
    ensures |key| <= MaxKeyLength / 4 && |value| <= MaxValueLength / 4 ==> r == None
    ensures |key| > MaxKeyLength ==> r == Some(KeyTooLong(key))
  {
    if ByteLen(key) > MaxKeyLength then Some(KeyTooLong(key))
    else if ByteLen(value) > MaxValueLength then Some(ValueTooLong(key, value))
    else None
  }

  /** Every local row carries at least a key and a value field. */
  predicate WellFormed(rows: seq<seq<string>>)
  {
    forall i :: 0 <= i < |rows| ==> |rows[i]| >= 2
  }

  /** What is wrong with row i given the rows before it, judged in the order
      the rows are read: a key seen in an earlier row first, then the limits. */
  function RowError(rows: seq<seq<string>>, i: nat): Option<Error>
    requires WellFormed(rows) && i < |rows|
  {
    if exists j :: 0 <= j < i && rows[j][0] == rows[i][0] then Some(DuplicateKey(rows[i][0]))
    else ValidateItem(rows[i][0], rows[i][1])
  }

  /** Row i is the first row with something wrong with it. */
  predicate FirstRowError(rows: seq<seq<string>>, i: nat)
    requires WellFormed(rows) && i < |rows|
  {
    RowError(rows, i).Some? && forall j :: 0 <= j < i ==> RowError(rows, j).None?
  }

  /** The map built from the first n rows, or the first error met on the way. */
  function InsertRows(rows: seq<seq<string>>, n: nat): Result<map<string, string>>
    requires WellFormed(rows) && n <= |rows|
  {
    if n == 0 then Ok(map[])
    else
      match InsertRows(rows, n - 1)
      case Err(e) => Err(e)
      case Ok(m) =>
        var k, v := rows[n - 1][0], rows[n - 1][1];
        if k in m then Err(DuplicateKey(k))
        else
          match ValidateItem(k, v)
          case Some(e) => Err(e)
          case None => Ok(m[k := v])
  }

  /** Rows without an error all go in, each key with its own value. */
  lemma {:induction false} InsertRowsOk(rows: seq<seq<string>>, n: nat)
    requires WellFormed(rows) && n <= |rows|
    requires forall i :: 0 <= i < n ==> RowError(rows, i) == None
    ensures InsertRows(rows, n).Ok?
    ensures forall i :: 0 <= i < n ==> rows[i][0] in InsertRows(rows, n).value
    ensures forall i :: 0 <= i < n ==> InsertRows(rows, n).value[rows[i][0]] == rows[i][1]
  {
    if n > 0 {
      InsertRowsOk(rows, n - 1);
      InsertRowsOkDomain(rows, n);
      var m := InsertRows(rows, n - 1).value;
      var k, v := rows[n - 1][0], rows[n - 1][1];
      assert RowError(rows, n - 1) == None;
      assert InsertRows(rows, n).value == m[k := v];
      forall i | 0 <= i < n - 1
        ensures rows[i][0] in m[k := v] && m[k := v][rows[i][0]] == rows[i][1]
      {
        assert rows[i][0] != k;
      }
    }
  }

  /** ... and nothing else goes in: one entry per row. */
  lemma {:induction false} InsertRowsOkDomain(rows: seq<seq<string>>, n: nat)
    requires WellFormed(rows) && n <= |rows|
    requires forall i :: 0 <= i < n ==> RowError(rows, i) == None
    ensures InsertRows(rows, n).Ok?
    ensures forall k :: k in InsertRows(rows, n).value ==> exists i :: 0 <= i < n && rows[i][0] == k
    ensures |InsertRows(rows, n).value| == n
  {
    if n > 0 {
      InsertRowsOkDomain(rows, n - 1);
      var m := InsertRows(rows, n - 1).value;
      var k := rows[n - 1][0];
      assert RowError(rows, n - 1) == None;
      assert forall j :: 0 <= j < n - 1 ==> rows[j][0] != k;
      assert k !in m;
    }
  }

  lemma {:induction false} InsertRowsFirstError(rows: seq<seq<string>>, n: nat, i: nat)
    requires WellFormed(rows) && i < n <= |rows|
    requires FirstRowError(rows, i)
    ensures InsertRows(rows, n) == Err(RowError(rows, i).value)
  {
    if n == i + 1 {
      InsertRowsOk(rows, i);
      InsertRowsOkDomain(rows, i);
      var m := InsertRows(rows, i).value;
      var k := rows[i][0];
      if exists j :: 0 <= j < i && rows[j][0] == k {
        assert k in m;
      } else {
        assert k !in m;
      }
    } else {
      InsertRowsFirstError(rows, n - 1, i);
    }
  }

  lemma {:induction false} FirstRowErrorExists(rows: seq<seq<string>>, n: nat)
    requires WellFormed(rows) && n <= |rows|
    requires exists i :: 0 <= i < n && RowError(rows, i).Some?
    ensures exists i :: 0 <= i < n && FirstRowError(rows, i)
  {
    if exists i :: 0 <= i < n - 1 && RowError(rows, i).Some? {
      FirstRowErrorExists(rows, n - 1);
    } else {
      assert FirstRowError(rows, n - 1);
    }
  }

  /** Once an error is met, later rows are never looked at. */
  lemma {:induction false} InsertRowsErrorPersists(rows: seq<seq<string>>, i: nat, n: nat)
    requires WellFormed(rows) && i <= n <= |rows|
    requires InsertRows(rows, i).Err?
    ensures InsertRows(rows, n) == InsertRows(rows, i)
  {
    if n > i {
      InsertRowsErrorPersists(rows, i, n - 1);
    }
  }

  /** stringSliceSliceToMap: more than MaxItems rows is refused outright;
      otherwise the rows become a map exactly when no row repeats an earlier
      key or breaks a limit, and the first such row, in row order, names the
      error. */
  function RowsToMap(rows: seq<seq<string>>): (r: Result<map<string, string>>)
    requires WellFormed(rows)
    ensures |rows| > MaxItems ==> r == Err(TooManyItems)
    ensures r.Ok? <==> |rows| <= MaxItems && forall i :: 0 <= i < |rows| ==> RowError(rows, i) == None
    ensures r.Ok? ==> forall i :: 0 <= i < |rows| ==> rows[i][0] in r.value && r.value[rows[i][0]] == rows[i][1]
    ensures r.Ok? ==> forall k :: k in r.value ==> exists i :: 0 <= i < |rows| && rows[i][0] == k
    ensures r.Ok? ==> |r.value| == |rows|
    ensures r.Err? && |rows| <= MaxItems ==>
              exists i :: 0 <= i < |rows| && FirstRowError(rows, i) && r.error == RowError(rows, i).value
  {
    if |rows| > MaxItems then Err(TooManyItems)
    else
      var r := InsertRows(rows, |rows|);
      assert (forall i :: 0 <= i < |rows| ==> RowError(rows, i) == None) ==>
               r.Ok? && (forall i :: 0 <= i < |rows| ==> rows[i][0] in r.value && r.value[rows[i][0]] == rows[i][1]) &&
               (forall k :: k in r.value ==> exists i :: 0 <= i < |rows| && rows[i][0] == k) &&
               |r.value| == |rows| by {
        if forall i :: 0 <= i < |rows| ==> RowError(rows, i) == None {
          InsertRowsOk(rows, |rows|);
          InsertRowsOkDomain(rows, |rows|);
        }
      }
      assert (exists i :: 0 <= i < |rows| && RowError(rows, i).Some?) ==>
               exists i :: 0 <= i < |rows| && FirstRowError(rows, i) && r == Err(RowError(rows, i).value) by {
        if exists i :: 0 <= i < |rows| && RowError(rows, i).Some? {
          FirstRowErrorExists(rows, |rows|);
          var i :| 0 <= i < |rows| && FirstRowError(rows, i);
          InsertRowsFirstError(rows, |rows|, i);
        }
      }
      r
  }

  /** A key repeated at row j, with every row before j acceptable, is
      reported as a duplicate of that key. */
  lemma DuplicateKeyIsReported(rows: seq<seq<string>>, i: nat, j: nat)
    requires WellFormed(rows) && |rows| <= MaxItems
    requires i < j < |rows| && rows[i][0] == rows[j][0]
    requires forall k :: 0 <= k < j ==> RowError(rows, k) == None
    ensures RowsToMap(rows) == Err(DuplicateKey(rows[j][0]))
  {
    assert FirstRowError(rows, j);
    InsertRowsFirstError(rows, |rows|, j);
  }

  /** fastlyDictionaryItemsToMap: the items inserted in list order, so a
      later item overwrites an earlier one with the same key. */
  function ItemsToMap(items: seq<DictionaryItem>): map<string, string>
  {
    if items == [] then map[]
    else
      var last := items[|items| - 1];
      ItemsToMap(items[..|items| - 1])[last.itemKey := last.itemValue]
  }

  /** Every listed key is in the map, and nothing else is. */
  lemma {:induction false} ItemsToMapKeys(items: seq<DictionaryItem>)
    ensures forall i :: 0 <= i < |items| ==> items[i].itemKey in ItemsToMap(items)
    ensures forall k :: k in ItemsToMap(items) ==> exists i :: 0 <= i < |items| && items[i].itemKey == k
  {
    if items != [] {
      var init := items[..|items| - 1];
      ItemsToMapKeys(init);
      assert forall i :: 0 <= i < |init| ==> init[i] == items[i];
      forall k | k in ItemsToMap(items) ensures exists i :: 0 <= i < |items| && items[i].itemKey == k {
        if k != items[|items| - 1].itemKey {
          var i :| 0 <= i < |init| && init[i].itemKey == k;
          assert items[i].itemKey == k;
        }
      }
    }
  }

  /** When a key is listed more than once, the last item's value wins. */
  lemma {:induction false} ItemsToMapLastWins(items: seq<DictionaryItem>, i: nat)
    requires i < |items|
    requires forall j :: i < j < |items| ==> items[j].itemKey != items[i].itemKey
    ensures items[i].itemKey in ItemsToMap(items)
    ensures ItemsToMap(items)[items[i].itemKey] == items[i].itemValue
  {
    if i < |items| - 1 {
      var init := items[..|items| - 1];
      assert init[i] == items[i];
      assert forall j :: i < j < |init| ==> init[j] == items[j];
      ItemsToMapLastWins(init, i);
      assert items[|items| - 1].itemKey != items[i].itemKey;
    }
  }
}
