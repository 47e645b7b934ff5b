/** Ship placement: the player toggles cells of a 5x5 grid, each selected cell
    kept as the key "x,y"; with exactly five selected, confirming sends a
    PLACE_SHIP message whose ships are the decoded keys. */
module Placement {
  import opened GameTypes

  const RequiredShips := 5
  const GridSize := 5

  // ---- decimal text of integers, as template strings and Number() give it ----

  function DigitChar(d: int): char
    requires 0 <= d < 10
  {
    (d + '0' as int) as char
  }

  predicate IsDigit(c: char)
  {
    '0' <= c <= '9'
  }

  predicate IsDigits(s: string)
  {
    |s| > 0 && forall i :: 0 <= i < |s| ==> IsDigit(s[i])
  }

  function NatToString(n: nat): (s: string)
    ensures IsDigits(s)
  {
    if n < 10 then [DigitChar(n)] else NatToString(n / 10) + [DigitChar(n % 10)]
  }

  /** `${i}` for a whole number. */
  function IntToString(i: int): string
  {
    if i < 0 then "-" + NatToString(-i) else NatToString(i)
  }

  function DigitValue(c: char): nat
    requires IsDigit(c)
  {
    c as int - '0' as int
  }

  function DigitsValue(s: string): int
    requires forall i :: 0 <= i < |s| ==> IsDigit(s[i])
  {
    if s == [] then 0 else DigitsValue(s[..|s| - 1]) * 10 + DigitValue(s[|s| - 1])
  }

  /** Number(s) on text made of an optional minus sign and decimal digits;
      None stands for NaN. */
  function ParseNumber(s: string): Option<int>
  {
    if IsDigits(s) then Some(DigitsValue(s))
    else if |s| > 1 && s[0] == '-' && IsDigits(s[1..]) then Some(-DigitsValue(s[1..]))
    else None
  }

  lemma {:induction false} NatToStringRoundTrip(n: nat)
    ensures DigitsValue(NatToString(n)) == n
  {
    if n >= 10 {
      var s := NatToString(n);
      assert s[..|s| - 1] == NatToString(n / 10);
      NatToStringRoundTrip(n / 10);
    }
  }

  /** Number(`${i}`) gives back i. */
  lemma NumberRoundTrip(i: int)
    ensures ParseNumber(IntToString(i)) == Some(i)
  {
    if i < 0 {
      var s := IntToString(i);
      assert s[1..] == NatToString(-i);
      assert !IsDigits(s) by { assert !IsDigit(s[0]); }
      NatToStringRoundTrip(-i);
    } else {
      NatToStringRoundTrip(i);
    }
  }

  // ---- String.prototype.split with a one-character separator ----

  /** Index of the first `sep` in `s`, or |s| when there is none. */
  function IndexOf(s: string, sep: char): (k: nat)
    ensures k <= |s|
    ensures k < |s| ==> s[k] == sep
    ensures forall i :: 0 <= i < k ==> s[i] != sep
  {
    if s == [] || s[0] == sep then 0 else 1 + IndexOf(s[1..], sep)
  }

  function Split(s: string, sep: char): (parts: seq<string>)
    ensures |parts| >= 1
    decreases |s|
  {
    var k := IndexOf(s, sep);
    if k == |s| then [s] else [s[..k]] + Split(s[k + 1..], sep)
  }

  lemma SplitNoSeparator(s: string, sep: char)
    requires sep !in s
    ensures Split(s, sep) == [s]
  {
    assert IndexOf(s, sep) == |s|;
  }

  lemma SplitPair(a: string, b: string, sep: char)
    requires sep !in a && sep !in b
    ensures Split(a + [sep] + b, sep) == [a, b]
  {
    var s := a + [sep] + b;
    assert s[|a|] == sep;
    assert IndexOf(s, sep) == |a|;
    assert s[..|a|] == a && s[|a| + 1..] == b;
    SplitNoSeparator(b, sep);
  }

  // ---- cell keys ----

  /** The key `${x},${y}` of a cell. */
  function Key(x: int, y: int): string
  {
    IntToString(x) + "," + IntToString(y)
  }

  /** `key.split(',').map(Number)` destructured into its first two numbers;
      None when either is NaN or missing. */
  function DecodeKey(key: string): Option<Coord>
  {
    var parts := Split(key, ',');
    if |parts| < 2 then None
    else
      match (ParseNumber(parts[0]), ParseNumber(parts[1]))
      case (Some(x), Some(y)) => Some(Coord(x, y))
      case _ => None
  }

  lemma NoCommaInNumber(i: int)
    ensures ',' !in IntToString(i)
  {
    var s := IntToString(i);
    forall j | 0 <= j < |s|
      ensures s[j] != ','
    {
      if i < 0 && j > 0 {
        assert s[j] == NatToString(-i)[j - 1];
      }
    }
  }

  /** Decoding a cell's key gives back the cell, for every pair of whole numbers. */
  lemma KeyRoundTrip(x: int, y: int)
    ensures DecodeKey(Key(x, y)) == Some(Coord(x, y))
  {
    NoCommaInNumber(x);
    NoCommaInNumber(y);
    SplitPair(IntToString(x), IntToString(y), ',');
    assert Key(x, y) == IntToString(x) + [','] + IntToString(y);
    NumberRoundTrip(x);
    NumberRoundTrip(y);
  }

  /** Distinct cells have distinct keys. */
  lemma KeyInjective(a: Coord, b: Coord)
    ensures Key(a.x, a.y) == Key(b.x, b.y) ==> a == b
  {
    KeyRoundTrip(a.x, a.y);
    KeyRoundTrip(b.x, b.y);
  }

  // ---- the selection: a Set of keys, iterated in insertion order ----

  predicate NoDuplicates<T(==)>(s: seq<T>)
  {
    forall i, j :: 0 <= i < j < |s| ==> s[i] != s[j]
  }

  lemma HeadNotInTail<T>(s: seq<T>)
    requires s != [] && NoDuplicates(s)
    ensures s[0] !in s[1..] && NoDuplicates(s[1..])
  {
    forall j | 0 <= j < |s| - 1
      ensures s[1..][j] != s[0]
    {
      assert s[1..][j] == s[j + 1];
    }
  }

  lemma ConsNoDuplicates<T>(a: T, s: seq<T>)
    requires a !in s && NoDuplicates(s)
    ensures NoDuplicates([a] + s)
  {
    var t := [a] + s;
    forall i, j | 0 <= i < j < |t|
      ensures t[i] != t[j]
    {
      assert t[j] == s[j - 1];
      if i > 0 {
        assert t[i] == s[i - 1];
      }
    }
  }

  /** Set.delete: the selection without `key`, order otherwise kept. */
  function Remove(sel: seq<string>, key: string): (r: seq<string>)
    ensures forall k :: k in r <==> k in sel && k != key
    ensures NoDuplicates(sel) ==> NoDuplicates(r)
    ensures NoDuplicates(sel) && key in sel ==> |r| == |sel| - 1
    ensures key !in sel ==> r == sel
  {
    if sel == [] then []
    else
      var rest := Remove(sel[1..], key);
      assert NoDuplicates(sel) ==> NoDuplicates(sel[1..]) && sel[0] !in rest by {
        if NoDuplicates(sel) { HeadNotInTail(sel); }
      }
      if sel[0] == key then rest
      else
        assert NoDuplicates(sel) ==> NoDuplicates([sel[0]] + rest) by {
          if NoDuplicates(sel) { ConsNoDuplicates(sel[0], rest); }
        }
        [sel[0]] + rest
  }

  lemma RemoveHead(sel: seq<string>, key: string)
    requires NoDuplicates(sel) && sel != [] && sel[0] == key
    ensures Remove(sel, key) == sel[1..]
  {
    HeadNotInTail(sel);
  }

  lemma SpliceCons<T>(s: seq<T>, i: nat)
    requires 0 < i < |s|
    ensures [s[0]] + (s[1..][..i - 1] + s[1..][i..]) == s[..i] + s[i + 1..]
  {
    assert s[1..][..i - 1] == s[1..i] && s[1..][i..] == s[i + 1..];
    assert [s[0]] + s[1..i] == s[..i];
  }

  /** On a selection without duplicates, deleting the key found at index `i`
      leaves exactly the keys before it followed by the keys after it, so the
      iteration order of the remaining keys is kept. */
  lemma {:induction false} RemoveAt(sel: seq<string>, key: string, i: nat)
    requires NoDuplicates(sel) && i < |sel| && sel[i] == key
    ensures Remove(sel, key) == sel[..i] + sel[i + 1..]
  {
    if i == 0 {
      RemoveHead(sel, key);
      assert sel[..0] + sel[1..] == sel[1..];
    } else {
      var tail := sel[1..];
      assert sel[0] != sel[i];
      assert Remove(sel, key) == [sel[0]] + Remove(tail, key);
      HeadNotInTail(sel);
      assert tail[i - 1] == key;
      RemoveAt(tail, key, i - 1);
      SpliceCons(sel, i);
    }
  }

  /** The selection after clicking the cell with key `key`. */
  function Toggle(sel: seq<string>, key: string): seq<string>
  {
    if key in sel then Remove(sel, key) else sel + [key]
  }

  /** Toggling removes the key when present and adds it when absent, leaves the
      membership of every other key alone, and keeps the keys distinct. */
  lemma ToggleSpec(sel: seq<string>, key: string, other: string)
    requires NoDuplicates(sel)
    ensures key in Toggle(sel, key) <==> key !in sel
    ensures other != key ==> (other in Toggle(sel, key) <==> other in sel)
    ensures NoDuplicates(Toggle(sel, key))
    ensures |Toggle(sel, key)| == if key in sel then |sel| - 1 else |sel| + 1
  {
  }

  /** Toggling the same cell twice restores the selected set. When the cell was
      not selected the selection is restored exactly; when it was, it moves to
      the end of the iteration order. */
  lemma ToggleTwice(sel: seq<string>, key: string)
    requires NoDuplicates(sel)
    ensures forall k :: k in Toggle(Toggle(sel, key), key) <==> k in sel
    ensures key !in sel ==> Toggle(Toggle(sel, key), key) == sel
    ensures key in sel ==> Toggle(Toggle(sel, key), key) == Remove(sel, key) + [key]
  {
    if key !in sel {
      assert key in sel + [key];
      assert Remove(sel + [key], key) == sel by { RemoveLast(sel, key); }
    }
  }

  lemma {:induction false} RemoveLast(sel: seq<string>, key: string)
    requires key !in sel
    ensures Remove(sel + [key], key) == sel
  {
    if sel != [] {
      assert (sel + [key])[1..] == sel[1..] + [key];
      RemoveLast(sel[1..], key);
    }
  }

  /** Every key of the selection decodes to a cell. */
  ghost predicate AllDecodable(sel: seq<string>)
  {
    forall k :: k in sel ==> DecodeKey(k).Some?
  }

  /** The ship list built from the selected keys, in iteration order. */
  function ShipsOf(sel: seq<string>): (ships: seq<Coord>)
    requires AllDecodable(sel)
    ensures |ships| == |sel|
    ensures forall i :: 0 <= i < |sel| ==> Some(ships[i]) == DecodeKey(sel[i])
  {
    if sel == [] then [] else [DecodeKey(sel[0]).value] + ShipsOf(sel[1..])
  }

  /** The ship list has one entry per selected key, each the cell whose key it
      is, and no cell twice. */
  lemma ShipsOfSpec(sel: seq<string>)
    requires WellFormedKeys(sel)
    ensures forall i :: 0 <= i < |sel| ==> Key(ShipsOf(sel)[i].x, ShipsOf(sel)[i].y) == sel[i]
    ensures NoDuplicates(sel) ==> NoDuplicates(ShipsOf(sel))
  {
  }

  /** A cell of the 5x5 board. */
  predicate InGrid(c: Coord)
  {
    0 <= c.x < GridSize && 0 <= c.y < GridSize
  }

  /** The placement grid's buttons in rendering order: outer index x, inner y. */
  function PlacementGrid(): (cells: seq<Coord>)
    ensures |cells| == GridSize * GridSize
    ensures forall i :: 0 <= i < |cells| ==> cells[i] == Coord(i / GridSize, i % GridSize)
  {
    seq(GridSize * GridSize, i => Coord(i / GridSize, i % GridSize))
  }

  /** The grid offers exactly the 25 in-range cells. */
  lemma PlacementGridCells(c: Coord)
    ensures c in PlacementGrid() <==> InGrid(c)
  {
    if InGrid(c) {
      var i := c.x * GridSize + c.y;
      assert PlacementGrid()[i] == c;
    }
  }

  /** Every selected key is the key of some cell. */
  ghost predicate WellFormedKeys(sel: seq<string>)
  {
    forall k :: k in sel ==> DecodeKey(k).Some? && k == Key(DecodeKey(k).value.x, DecodeKey(k).value.y)
  }

  /** Every selected key is the key of a cell of the grid. */
  ghost predicate AllInGrid(sel: seq<string>)
    requires WellFormedKeys(sel)
  {
    forall k :: k in sel ==> InGrid(DecodeKey(k).value)
  }

  /** The PLACE_SHIP message sent on confirmation. */
  function PlaceShipMessage(sel: seq<string>): (m: MessageWs)
    requires AllDecodable(sel)
    ensures m.kind == PlaceShipTag && m.payload.PlaceBody?
    ensures m.payload.place.ships == ShipsOf(sel)
  {
    MessageWs(PlaceShipTag, PlaceBody(PlacePayload(ShipsOf(sel))))
  }

  /** The placement panel's selection state. */
  class PlacementPanel {
    var selectedCells: seq<string>

    ghost predicate Valid()
      reads this
    {
      NoDuplicates(selectedCells) && WellFormedKeys(selectedCells)
    }

    constructor ()
      ensures Valid() && selectedCells == []
    {
      selectedCells := [];
    }

    /** Click on cell (x, y). Clicks on grid cells keep every selected cell on
        the board. */
    method ToggleCell(x: int, y: int)
      requires Valid()
      modifies this
      ensures Valid()
      ensures selectedCells == Toggle(old(selectedCells), Key(x, y))
      ensures old(AllInGrid(selectedCells)) && InGrid(Coord(x, y)) ==> AllInGrid(selectedCells)
    {
      var key := Key(x, y);
      KeyRoundTrip(x, y);
      if key in selectedCells {
        selectedCells := Remove(selectedCells, key);
      } else {
        selectedCells := selectedCells + [key];
      }
    }

    predicate IsSelected(x: int, y: int)
      reads this
    {
      Key(x, y) in selectedCells
    }

    /** The confirm button is enabled exactly when five cells are selected. */
    predicate CanConfirm()
      reads this
    {
      |selectedCells| == RequiredShips
    }

    /** The message handed to the confirmation callback: one ship per selected
        cell and no cell twice; all on the board when every click was on the grid. */
    method HandleConfirm() returns (m: MessageWs)
      requires Valid()
      ensures m == PlaceShipMessage(selectedCells)
      ensures |m.payload.place.ships| == |selectedCells|
      ensures NoDuplicates(m.payload.place.ships)
      ensures forall i :: 0 <= i < |m.payload.place.ships| ==>
                IsSelected(m.payload.place.ships[i].x, m.payload.place.ships[i].y)
      ensures AllInGrid(selectedCells) ==>
                forall i :: 0 <= i < |m.payload.place.ships| ==> InGrid(m.payload.place.ships[i])
    {
      ShipsOfSpec(selectedCells);
      m := PlaceShipMessage(selectedCells);
    }
  }
}
