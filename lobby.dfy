/** The lobby: a room-code input that is kept upper-case, a join action that
    trims and upper-cases the code and joins only when it is non-empty, and a
    create action that joins a freshly generated room. */
module Lobby {
  import opened GameTypes
  import opened Store
  import Utils
  import App

  /** The characters String.prototype.trim removes: the white space and line
      terminator characters of ECMAScript. */
  const Whitespace: set<char> := {
    '\t', '\n', '\U{000B}', '\U{000C}', '\r', ' ', '\U{00A0}', '\U{1680}',
    '\U{2000}', '\U{2001}', '\U{2002}', '\U{2003}', '\U{2004}', '\U{2005}',
    '\U{2006}', '\U{2007}', '\U{2008}', '\U{2009}', '\U{200A}',
    '\U{2028}', '\U{2029}', '\U{202F}', '\U{205F}', '\U{3000}', '\U{FEFF}'
  }

  predicate IsWhitespace(c: char)
  {
    c in Whitespace
  }

  function TrimStart(s: string): (r: string)
    ensures |r| <= |s| && r == s[|s| - |r|..]
    ensures r == [] || !IsWhitespace(r[0])
    ensures forall i :: 0 <= i < |s| - |r| ==> IsWhitespace(s[i])
  {
    if s != [] && IsWhitespace(s[0]) then TrimStart(s[1..]) else s
  }

  function TrimEnd(s: string): (r: string)
    ensures |r| <= |s| && r == s[..|r|]
    ensures r == [] || !IsWhitespace(r[|r| - 1])
    ensures forall i :: |r| <= i < |s| ==> IsWhitespace(s[i])
  {
    if s != [] && IsWhitespace(s[|s| - 1]) then TrimEnd(s[..|s| - 1]) else s
  }

  function Trim(s: string): string
  {
    TrimEnd(TrimStart(s))
  }

  /** The trimmed string is the slice of `s` starting after the leading white
      space, and everything outside that slice is white space. */
  lemma TrimSlice(s: string)
    ensures var i := |s| - |TrimStart(s)|; var t := Trim(s);
            i + |t| <= |s| && t == s[i..i + |t|]
            && (forall k :: 0 <= k < i ==> IsWhitespace(s[k]))
            && (forall k :: i + |t| <= k < |s| ==> IsWhitespace(s[k]))
  {
    var a := TrimStart(s);
    var i := |s| - |a|;
    var t := TrimEnd(a);
    assert a == s[i..];
    assert t == a[..|t|];
    forall k | i + |t| <= k < |s|
      ensures IsWhitespace(s[k])
    {
      assert s[k] == a[k - i];
    }
  }

  /** Trimming leaves no white space at either end, and yields the empty
      string exactly when the input is all white space. */
  lemma TrimSpec(s: string)
    ensures Trim(s) == [] || (!IsWhitespace(Trim(s)[0]) && !IsWhitespace(Trim(s)[|Trim(s)| - 1]))
    ensures Trim(s) == [] <==> forall k :: 0 <= k < |s| ==> IsWhitespace(s[k])
  {
    var a := TrimStart(s);
    var t := TrimEnd(a);
    var i := |s| - |a|;
    TrimSlice(s);
    if t != [] {
      assert a[0] == t[0];
      assert s[i] == t[0];
    } else {
      assert a == [];
    }
  }

  /** Trimming an already trimmed string changes nothing. */
  lemma TrimIdempotent(s: string)
    ensures Trim(Trim(s)) == Trim(s)
  {
    var t := Trim(s);
    TrimSpec(s);
    assert TrimStart(t) == t;
    assert TrimEnd(t) == t;
  }

  /** Upper-casing neither creates nor removes white space. */
  lemma UpperKeepsWhitespace(c: char)
    ensures IsWhitespace(Utils.UpperChar(c)) <==> IsWhitespace(c)
  {
  }

  lemma {:induction false} TrimStartUpper(s: string)
    ensures TrimStart(Utils.ToUpper(s)) == Utils.ToUpper(TrimStart(s))
  {
    if s != [] {
      UpperKeepsWhitespace(s[0]);
      assert Utils.ToUpper(s)[1..] == Utils.ToUpper(s[1..]);
      TrimStartUpper(s[1..]);
    }
  }

  lemma {:induction false} TrimEndUpper(s: string)
    ensures TrimEnd(Utils.ToUpper(s)) == Utils.ToUpper(TrimEnd(s))
  {
    if s != [] {
      UpperKeepsWhitespace(s[|s| - 1]);
      assert Utils.ToUpper(s)[..|s| - 1] == Utils.ToUpper(s[..|s| - 1]);
      TrimEndUpper(s[..|s| - 1]);
    }
  }

  /** Trimming and upper-casing commute. */
  lemma TrimUpperCommute(s: string)
    ensures Trim(Utils.ToUpper(s)) == Utils.ToUpper(Trim(s))
  {
    TrimStartUpper(s);
    TrimEndUpper(TrimStart(s));
  }

  /** The code handleJoin passes on: the trimmed, upper-cased input, or nothing
      when the trimmed input is empty. */
  function JoinCode(input: string): (r: Option<string>)
    ensures r.Some? <==> exists k :: 0 <= k < |input| && !IsWhitespace(input[k])
  {
    TrimSpec(input);
    var t := Trim(input);
    if t != "" then Some(Utils.ToUpper(t)) else None
  }

  lemma NoLowerCaseSlice(s: string, i: int, j: int)
    requires Utils.NoLowerCase(s) && 0 <= i <= j <= |s|
    ensures Utils.NoLowerCase(s[i..j])
  {
    forall k | 0 <= k < j - i
      ensures !('a' <= s[i..j][k] <= 'z')
    {
      assert s[i..j][k] == s[i + k];
    }
  }

  /** Trimming an upper-case string leaves it upper-case. */
  lemma TrimKeepsNoLowerCase(s: string)
    requires Utils.NoLowerCase(s)
    ensures Utils.NoLowerCase(Trim(s))
  {
    var a := TrimStart(s);
    NoLowerCaseSlice(s, |s| - |a|, |s|);
    assert a == s[|s| - |a|..|s|];
    NoLowerCaseSlice(a, 0, |TrimEnd(a)|);
  }

  /** A joined code is never empty and has no surrounding white space and no
      lower-case letter. */
  lemma JoinCodeSpec(input: string)
    ensures var r := JoinCode(input);
            r.Some? ==>
              r.value != "" && Utils.NoLowerCase(r.value)
              && !IsWhitespace(r.value[0]) && !IsWhitespace(r.value[|r.value| - 1])
  {
    var t := Trim(input);
    TrimSpec(input);
    Utils.ToUpperSpec(t);
    if t != "" {
      UpperKeepsWhitespace(t[0]);
      UpperKeepsWhitespace(t[|t| - 1]);
    }
  }

  /** For input that is already upper-case, as the input field keeps it, the
      code is just the trimmed input: upper-casing again is a no-op. */
  lemma JoinCodeOfUpperInput(input: string)
    requires Utils.NoLowerCase(input)
    ensures JoinCode(input).Some? ==> JoinCode(input) == Some(Trim(input))
  {
    TrimKeepsNoLowerCase(input);
    Utils.ToUpperSpec(Trim(input));
  }

  /** Joining is insensitive to surrounding white space and letter case. */
  lemma JoinCodeNormalises(input: string)
    ensures JoinCode(Utils.ToUpper(input)) == JoinCode(input)
    ensures JoinCode(Trim(input)) == JoinCode(input)
  {
    TrimUpperCommute(input);
    Utils.ToUpperSpec(Trim(input));
    TrimIdempotent(input);
  }

  /** The join button is disabled exactly when the trimmed input is empty. */
  predicate JoinDisabled(input: string)
  {
    Trim(input) == ""
  }

  lemma JoinEnabledIffJoins(input: string)
    ensures !JoinDisabled(input) <==> JoinCode(input).Some?
  {
  }

  /** The key press handler joins only on Enter; other keys do nothing. */
  function KeyPressJoin(key: string, input: string): (r: Option<string>)
    ensures r.Some? <==> key == "Enter" && JoinCode(input).Some?
    ensures r.Some? ==> r == JoinCode(input)
  {
    if key == "Enter" && Trim(input) != "" then JoinCode(input) else None
  }

  class LobbyPanel {
    var inputRoomID: string
    var joystickActive: bool

    /** The input field only ever holds upper-case text, and the joystick flag
        is only ever set to true. */
    predicate Valid()
      reads this
    {
      Utils.NoLowerCase(inputRoomID) && joystickActive
    }

    constructor ()
      ensures Valid() && inputRoomID == ""
    {
      inputRoomID := "";
      joystickActive := true;
    }

    /** Typing in the field stores the typed value upper-cased. */
    method OnChange(value: string)
      requires Valid()
      modifies this
      ensures Valid()
      ensures inputRoomID == Utils.ToUpper(value) && joystickActive == old(joystickActive)
    {
      Utils.ToUpperSpec(value);
      inputRoomID := Utils.ToUpper(value);
    }

    /** handleJoin: joins the trimmed, upper-cased code when there is one. */
    method HandleJoin(store: GameStore)
      modifies store
      ensures JoinCode(inputRoomID).None? ==> unchanged(store)
      ensures JoinCode(inputRoomID).Some? ==>
                store.State() == old(store.State()).(roomID := JoinCode(inputRoomID))
                && App.ActiveScreen(store.roomID) == App.GameScreen
    {
      if Trim(inputRoomID) != "" {
        JoinCodeSpec(inputRoomID);
        App.HandleJoinGame(store, Utils.ToUpper(Trim(inputRoomID)));
      }
    }

    /** The join button: handleJoin, then the joystick flag is set. */
    method JoinButtonClick(store: GameStore)
      requires Valid()
      modifies this, store
      ensures Valid() && inputRoomID == old(inputRoomID)
      ensures JoinCode(inputRoomID).None? ==> unchanged(store)
      ensures JoinCode(inputRoomID).Some? ==>
                store.State() == old(store.State()).(roomID := JoinCode(inputRoomID))
    {
      HandleJoin(store);
      joystickActive := true;
    }

    /** handleKeyPress: on Enter with a non-empty trimmed code, join and set
        the joystick flag; anything else does nothing. */
    method HandleKeyPress(key: string, store: GameStore)
      requires Valid()
      modifies this, store
      ensures Valid() && inputRoomID == old(inputRoomID)
      ensures KeyPressJoin(key, inputRoomID).None? ==> unchanged(store)
      ensures KeyPressJoin(key, inputRoomID).Some? ==>
                store.State() == old(store.State()).(roomID := KeyPressJoin(key, inputRoomID))
    {
      if key == "Enter" && Trim(inputRoomID) != "" {
        HandleJoin(store);
        joystickActive := true;
      }
    }

    /** handleCreateRoom: the generated id goes into the field and is joined as
        it is. */
    method HandleCreateRoom(store: GameStore, randomText: string)
      requires Valid()
      modifies this, store
      ensures Valid()
      ensures inputRoomID == Utils.GenerateRoomID(randomText)
      ensures store.State() == old(store.State()).(roomID := Some(inputRoomID))
    {
      var newRoomID := Utils.GenerateRoomID(randomText);
      Utils.GenerateRoomIDSpec(randomText);
      inputRoomID := newRoomID;
      App.HandleJoinGame(store, newRoomID);
      joystickActive := true;
    }
  }
}
