/**
 * Room entry on the home page (Home.jsx): `createRoom` and `joinRoom`
 * validate the typed name and room code and then store a player record and
 * move to the lobby route. Both are modelled as decisions returning either
 * the alert shown or the record and route. The random part of a new room
 * code is a parameter `offset`, standing for `Math.random() * 900000`
 * rounded down.
 */
module Home {
  import JsText

  /** The record given to `setPlayer`. */
  datatype PlayerRecord = PlayerRecord(name: string, roomId: string)

  datatype Entry = Rejected(alert: string) | Accepted(player: PlayerRecord, route: string)

  const NameAlert: string := "Enter your name"
  const CodeAlert: string := "Enter valid room code"
  const CodeLength: nat := 6

  function LobbyRoute(code: string): string {
    "/lobby/" + code
  }

  lemma SixDigitBounds()
    ensures JsText.Pow10(5) == 100000 && JsText.Pow10(6) == 1000000
  {
  }

  /** A new room code: `100000 + offset` in decimal, six digits with no leading zero. */
  function RoomCode(offset: nat): (code: string)
    requires offset < 900000
    ensures |code| == CodeLength && JsText.AllDigits(code) && code[0] != '0'
    ensures JsText.ParseDecimal(code) == 100000 + offset
  {
    SixDigitBounds();
    JsText.DecimalStringLength(100000 + offset, 6);
    JsText.DecimalString(100000 + offset)
  }

  /** Distinct offsets give distinct codes. */
  lemma RoomCodeInjective(o1: nat, o2: nat)
    requires o1 < 900000 && o2 < 900000
    ensures RoomCode(o1) == RoomCode(o2) ==> o1 == o2
  {
  }

  /** `createRoom`: a blank name raises the name alert; otherwise a fresh six-digit code is stored with the untrimmed name. */
  function CreateRoom(name: string, offset: nat): (r: Entry)
    requires offset < 900000
    ensures r.Rejected? <==> JsText.IsBlank(name)
    ensures r.Rejected? ==> r.alert == NameAlert
    ensures r.Accepted? ==>
      && r.player.name == name
      && |r.player.roomId| == CodeLength && JsText.AllDigits(r.player.roomId)
      && JsText.ParseDecimal(r.player.roomId) == 100000 + offset
      && r.route == LobbyRoute(r.player.roomId)
  {
    if JsText.IsBlank(name) then Rejected(NameAlert)
    else
      var code := RoomCode(offset);
      Accepted(PlayerRecord(name, code), LobbyRoute(code))
  }

  /**
   * `joinRoom`: the name is checked first, so a blank name is refused whatever
   * the code; then only the code's length is checked (its characters are not).
   */
  function JoinRoom(name: string, roomCode: string): (r: Entry)
    ensures JsText.IsBlank(name) ==> r == Rejected(NameAlert)
    ensures !JsText.IsBlank(name) && |roomCode| != CodeLength ==> r == Rejected(CodeAlert)
    ensures r.Accepted? <==> !JsText.IsBlank(name) && |roomCode| == CodeLength
    ensures r.Accepted? ==> r.player == PlayerRecord(name, roomCode) && r.route == LobbyRoute(roomCode)
  {
    if JsText.IsBlank(name) then Rejected(NameAlert)
    else if |roomCode| != CodeLength then Rejected(CodeAlert)
    else Accepted(PlayerRecord(name, roomCode), LobbyRoute(roomCode))
  }

  /** A code with letters in it is let through as long as it has six characters. */
  lemma NonDigitCodeAccepted()
    ensures JoinRoom("ann", "12ab56") == Accepted(PlayerRecord("ann", "12ab56"), "/lobby/12ab56")
    ensures !JsText.AllDigits("12ab56")
  {
    assert !JsText.IsWhiteSpace("ann"[0]);
    assert !JsText.IsDigit("12ab56"[2]);
  }

  /** A generated code is always accepted by `joinRoom` under the same name. */
  lemma CreatedCodeJoinable(name: string, offset: nat)
    requires offset < 900000
    requires CreateRoom(name, offset).Accepted?
    ensures JoinRoom(name, CreateRoom(name, offset).player.roomId) == CreateRoom(name, offset)
  {
  }
}
