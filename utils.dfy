/** Pure helpers shared by the views: turn test, connection-status label and
    the class string of a board cell. */
module Utils {
  import opened GameTypes

  /** True exactly when the player whose turn it is, is this client's player. */
  predicate IsMyTurn(activePlayer: string, playerID: string)
  {
    activePlayer == playerID
  }

  /** The wire name of each connection status. */
  function ConnectionStatusName(s: ConnectionStatus): string
  {
    match s
    case Disconnected => "disconnected"
    case Connecting => "connecting"
    case Connected => "connected"
  }

  datatype StatusLabel = StatusLabel(text: string, color: string)

  const UnknownLabel := StatusLabel("UNKNOWN", "text-gray-400")

  /** Display label for a status string; the lookup accepts any string. */
  function FormatConnectionStatus(status: string): StatusLabel
  {
    if status == "connected" then StatusLabel("ONLINE", "text-green-400")
    else if status == "connecting" then StatusLabel("CONNECTING...", "text-yellow-400")
    else if status == "disconnected" then StatusLabel("OFFLINE", "text-red-400")
    else UnknownLabel
  }

  /** Each of the three statuses gets its own label, never the fallback, and a
      string that names none of them gets the fallback. */
  lemma FormatConnectionStatusTable(s: ConnectionStatus, other: string)
    ensures FormatConnectionStatus(ConnectionStatusName(s)).text ==
      (match s
       case Connected => "ONLINE"
       case Connecting => "CONNECTING..."
       case Disconnected => "OFFLINE")
    ensures (forall t: ConnectionStatus :: other != ConnectionStatusName(t)) ==>
      FormatConnectionStatus(other) == UnknownLabel
    ensures FormatConnectionStatus(ConnectionStatusName(s)) != UnknownLabel
  {
    if forall t: ConnectionStatus :: other != ConnectionStatusName(t) {
      assert other != ConnectionStatusName(Connected);
      assert other != ConnectionStatusName(Connecting);
      assert other != ConnectionStatusName(Disconnected);
    }
  }

  const BaseClasses := "aspect-square flex items-center justify-center border border-cyan-900/30 transition-all duration-200"
  const EmptyClasses := " bg-slate-900/50 "
  const HoverClasses := "hover:bg-cyan-900/20 hover:border-cyan-500/50 cursor-pointer"
  const MaskedShipClasses := " bg-slate-900/50"
  const OwnShipClasses := " bg-blue-600/70 shadow-[0_0_10px_rgba(37,99,235,0.5)] border-blue-500/50"
  const HitClasses := " bg-red-600/80 shadow-[0_0_15px_rgba(225,29,72,0.6)] border-red-500/70 animate-pulse"
  const MissClasses := " bg-slate-700/60 border-slate-600/50"

  /** Class string of a cell with raw code `cell`. */
  function GetCellClassName(cell: int, isOpponentBoard: bool, isHoverable: bool): string
  {
    if cell == CellCode(Empty) then BaseClasses + EmptyClasses + (if isHoverable then HoverClasses else "")
    else if cell == CellCode(Ship) then
      if isOpponentBoard then BaseClasses + MaskedShipClasses else BaseClasses + OwnShipClasses
    else if cell == CellCode(Hit) then BaseClasses + HitClasses
    else if cell == CellCode(Miss) then BaseClasses + MissClasses
    else BaseClasses
  }

  /** The string with its trailing spaces removed; a browser reads the same class
      list from a string with or without them. */
  function DropTrailingSpaces(s: string): (r: string)
    ensures |r| <= |s| && r == s[..|r|]
    ensures r == [] || r[|r| - 1] != ' '
    ensures forall i :: |r| <= i < |s| ==> s[i] == ' '
  {
    if s != [] && s[|s| - 1] == ' ' then DropTrailingSpaces(s[..|s| - 1]) else s
  }

  /** Appending trailing spaces never changes the trimmed string. */
  lemma {:induction false} TrimEndSpaces(s: string, n: nat)
    ensures DropTrailingSpaces(s + seq(n, _ => ' ')) == DropTrailingSpaces(s)
  {
    if n > 0 {
      var t := s + seq(n, _ => ' ');
      assert t != [] && t[|t| - 1] == ' ';
      assert t[..|t| - 1] == s + seq(n - 1, _ => ' ');
      TrimEndSpaces(s, n - 1);
    } else {
      assert s + seq(n, _ => ' ') == s;
    }
  }

  /** Ships are masked on the opponent board: a SHIP cell there gets the class
      list of an EMPTY cell that is not hoverable. The raw strings differ only
      by the empty cell's trailing space. */
  lemma OpponentShipMasked(isHoverable: bool, anyBoard: bool)
    ensures DropTrailingSpaces(GetCellClassName(CellCode(Ship), true, isHoverable)) ==
            DropTrailingSpaces(GetCellClassName(CellCode(Empty), anyBoard, false))
    ensures GetCellClassName(CellCode(Empty), anyBoard, false) ==
            GetCellClassName(CellCode(Ship), true, isHoverable) + " "
  {
    var masked := BaseClasses + MaskedShipClasses;
    assert GetCellClassName(CellCode(Empty), anyBoard, false) == masked + seq(1, _ => ' ');
    TrimEndSpaces(masked, 1);
  }

  /** Hover classes appear only on an EMPTY cell that is hoverable. */
  lemma HoverOnlyOnHoverableEmpty(cell: int, isOpponentBoard: bool, isHoverable: bool)
    ensures GetCellClassName(cell, isOpponentBoard, isHoverable) ==
            GetCellClassName(cell, isOpponentBoard, false) + HoverClasses
            <==> cell == CellCode(Empty) && isHoverable
    ensures !(cell == CellCode(Empty) && isHoverable) ==>
            GetCellClassName(cell, isOpponentBoard, isHoverable) ==
            GetCellClassName(cell, isOpponentBoard, false)
  {
    var r := GetCellClassName(cell, isOpponentBoard, isHoverable);
    var plain := GetCellClassName(cell, isOpponentBoard, false);
    if !(cell == CellCode(Empty) && isHoverable) {
      assert r == plain;
      assert |plain + HoverClasses| > |plain|;
    }
  }

  /** Every class string starts with the base classes; an unrecognised code
      yields exactly the base classes. */
  lemma ClassNameStartsWithBase(cell: int, isOpponentBoard: bool, isHoverable: bool)
    ensures var r := GetCellClassName(cell, isOpponentBoard, isHoverable);
            |BaseClasses| <= |r| && r[..|BaseClasses|] == BaseClasses
    ensures CellOfCode(cell).None? ==>
              GetCellClassName(cell, isOpponentBoard, isHoverable) == BaseClasses
  {
  }

  /** HIT and MISS cells look the same on both boards, hoverable or not, and the
      two looks differ. */
  lemma HitMissIndependent(o1: bool, h1: bool, o2: bool, h2: bool)
    ensures GetCellClassName(CellCode(Hit), o1, h1) == GetCellClassName(CellCode(Hit), o2, h2)
    ensures GetCellClassName(CellCode(Miss), o1, h1) == GetCellClassName(CellCode(Miss), o2, h2)
    ensures GetCellClassName(CellCode(Hit), o1, h1) != GetCellClassName(CellCode(Miss), o2, h2)
  {
    assert |HitClasses| != |MissClasses|;
  }

  /** On the player's own board a ship is visible: its class string differs from
      an EMPTY cell's. */
  lemma OwnShipVisible(isHoverable: bool, h2: bool)
    ensures GetCellClassName(CellCode(Ship), false, isHoverable) != GetCellClassName(CellCode(Empty), false, h2)
  {
    assert |OwnShipClasses| != |EmptyClasses| && |OwnShipClasses| != |EmptyClasses + HoverClasses|;
  }

  /** String.prototype.toUpperCase on the ASCII letters; every other character
      is kept. */
  function UpperChar(c: char): char
  {
    if 'a' <= c <= 'z' then (c as int - 'a' as int + 'A' as int) as char else c
  }

  function ToUpper(s: string): (r: string)
    ensures |r| == |s| && forall i :: 0 <= i < |s| ==> r[i] == UpperChar(s[i])
  {
    seq(|s|, i requires 0 <= i < |s| => UpperChar(s[i]))
  }

  predicate NoLowerCase(s: string)
  {
    forall i :: 0 <= i < |s| ==> !('a' <= s[i] <= 'z')
  }

  /** Upper-casing leaves no lower-case letter, and a string without one is its
      own upper-case form, so upper-casing twice is upper-casing once. */
  lemma ToUpperSpec(s: string)
    ensures NoLowerCase(ToUpper(s))
    ensures NoLowerCase(s) ==> ToUpper(s) == s
    ensures ToUpper(ToUpper(s)) == ToUpper(s)
  {
    var u := ToUpper(s);
    assert forall i :: 0 <= i < |u| ==> UpperChar(u[i]) == u[i];
  }

  /** String.prototype.substring: both ends are clamped into the string and
      swapped when out of order. */
  function Substring(s: string, start: int, end: int): (r: string)
    ensures |r| <= |s|
  {
    var a := if start < 0 then 0 else if start > |s| then |s| else start;
    var b := if end < 0 then 0 else if end > |s| then |s| else end;
    if a <= b then s[a..b] else s[b..a]
  }

  /** generateRoomID, given the base-36 text of the random number: characters 2
      to 7 of it, upper-cased. */
  function GenerateRoomID(randomText: string): (id: string)
  {
    ToUpper(Substring(randomText, 2, 8))
  }

  /** A generated id is at most six characters long and has no lower-case
      letter; from a text of eight characters or more it is exactly characters
      2 to 7, upper-cased. */
  lemma GenerateRoomIDSpec(randomText: string)
    ensures |GenerateRoomID(randomText)| <= 6
    ensures NoLowerCase(GenerateRoomID(randomText))
    ensures |randomText| >= 8 ==> GenerateRoomID(randomText) == ToUpper(randomText[2..8])
    ensures |randomText| <= 2 ==> GenerateRoomID(randomText) == ""
  {
    ToUpperSpec(Substring(randomText, 2, 8));
  }
}
