/**
 * The client-side round state of the multiplayer game page (Game.jsx): the
 * component's state fields, the handlers of the inbound socket events
 * `both-players-joined`, `round-result`, `rematch-start` and `chat-message`,
 * and the outbound actions. An outbound socket emission is returned as an
 * `Outbound` value instead of being sent.
 */
module GamePage {
  import opened Wrappers
  import JsText

  datatype PlayerInfo = PlayerInfo(id: string, name: string)

  datatype ChatMessage = ChatMessage(sender: string, text: string)

  /** What the page emits on the socket. */
  datatype Outbound = PlayerMove(choice: string) | RematchRequest | ChatOut(text: string)

  /** The headline of the result panel. */
  datatype Banner = YouWon | Draw | YouLost

  /** The guard of `sendMove`: no move yet this round and no result on screen. */
  predicate MoveGuard(hasPicked: bool, roundResult: Option<string>) {
    !hasPicked && roundResult == None
  }

  /** The `disabled` attribute of the three choice buttons: set exactly when `sendMove` would do nothing. */
  function ChoicesDisabled(hasPicked: bool, roundResult: Option<string>): (d: bool)
    ensures d <==> !MoveGuard(hasPicked, roundResult)
  {
    hasPicked || roundResult != None
  }

  /**
   * The result panel and its headline for the connection `me`. The panel is
   * drawn only for a non-null result, so the "Draw!" headline, reserved for a
   * null result, can never appear: a tie reported as a null winner shows no
   * panel at all.
   */
  function ResultBanner(roundResult: Option<string>, me: string): (b: Option<Banner>)
    ensures b.Some? <==> roundResult.Some?
    ensures b != Some(Draw)
    ensures b == Some(YouWon) <==> roundResult == Some(me)
    ensures b == Some(YouLost) <==> roundResult.Some? && roundResult != Some(me)
  {
    if roundResult == None then None
    else if roundResult == Some(me) then Some(YouWon)
    else if roundResult == None then Some(Draw)
    else Some(YouLost)
  }

  /** Index of the first player whose id is `id`, or `|ps|` when there is none (`Array.prototype.find`). */
  function FindPlayer(ps: seq<PlayerInfo>, id: string): (i: nat)
    ensures i <= |ps|
    ensures i < |ps| ==> ps[i].id == id
    ensures forall j | 0 <= j < i :: ps[j].id != id
  {
    if ps == [] then 0
    else if ps[0].id == id then 0
    else 1 + FindPlayer(ps[1..], id)
  }

  /**
   * `getPlayerName(id)`: the name of the first player with that id; "Unknown"
   * when there is none or when that name is empty (the `||` fallback treats
   * the empty string as missing).
   */
  function PlayerName(ps: seq<PlayerInfo>, id: string): (name: string)
    ensures name != ""
    ensures (forall j | 0 <= j < |ps| :: ps[j].id != id) ==> name == "Unknown"
    ensures forall j | 0 <= j < |ps| && ps[j].id == id && (forall k | 0 <= k < j :: ps[k].id != id) ::
      name == (if ps[j].name == "" then "Unknown" else ps[j].name)
  {
    var i := FindPlayer(ps, id);
    if i < |ps| && ps[i].name != "" then ps[i].name else "Unknown"
  }

  /** The state fields of the game page. */
  class Game {
    var players: seq<PlayerInfo>
    var scores: map<string, int>
    var roundResult: Option<string>
    var moves: map<string, string>
    var chat: seq<ChatMessage>
    var message: string
    var hasPicked: bool

    /** The initial state, after the mount effect has emptied the chat. */
    constructor ()
      ensures players == [] && scores == map[] && roundResult == None && moves == map[]
      ensures chat == [] && message == "" && !hasPicked
      ensures MoveGuard(hasPicked, roundResult)
    {
      players := [];
      scores := map[];
      roundResult := None;
      moves := map[];
      chat := [];
      message := "";
      hasPicked := false;
    }

    /** Inbound `both-players-joined`: takes the server's player list and scores. */
    method OnBothPlayersJoined(ps: seq<PlayerInfo>, sc: map<string, int>)
      modifies this`players, this`scores
      ensures players == ps && scores == sc
    {
      players := ps;
      scores := sc;
    }

    /**
     * Inbound `round-result`: stores the moves, the scores and the winner id,
     * and re-arms the move guard's first half. A win leaves the result on
     * screen and the choices locked until `rematch-start`; a tie (null winner)
     * leaves the move guard and the result panel as those of a page with no
     * result: the guard holds again and no panel is drawn, while the moves and
     * scores of the tied round stay.
     */
    method OnRoundResult(mv: map<string, string>, winnerId: Option<string>, sc: map<string, int>)
      modifies this`moves, this`scores, this`roundResult, this`hasPicked
      ensures moves == mv && scores == sc && roundResult == winnerId && !hasPicked
      ensures winnerId.Some? ==> !MoveGuard(hasPicked, roundResult)
      ensures winnerId == None ==>
        MoveGuard(hasPicked, roundResult) && forall me :: ResultBanner(roundResult, me) == None
    {
      moves := mv;
      scores := sc;
      roundResult := winnerId;
      hasPicked := false;
    }

    /** Inbound `rematch-start`: clears the result and the moves and re-opens the choices; scores, players and chat stay. */
    method OnRematchStart()
      modifies this`roundResult, this`moves, this`hasPicked
      ensures roundResult == None && moves == map[] && !hasPicked
      ensures MoveGuard(hasPicked, roundResult)
    {
      roundResult := None;
      moves := map[];
      hasPicked := false;
    }

    /** Inbound `chat-message`: appended at the end, earlier messages untouched. */
    method OnChatMessage(msg: ChatMessage)
      modifies this`chat
      ensures chat == old(chat) + [msg]
      ensures |chat| == |old(chat)| + 1 && chat[..|old(chat)|] == old(chat)
    {
      chat := chat + [msg];
    }

    /** The chat input's `onChange`. */
    method SetMessage(text: string)
      modifies this`message
      ensures message == text
    {
      message := text;
    }

    /** `sendMove(choice)`: emits the move and marks it picked only while the move guard holds. */
    method SendMove(choice: string) returns (sent: Option<Outbound>)
      modifies this`hasPicked
      ensures sent.Some? <==> old(MoveGuard(hasPicked, roundResult))
      ensures sent.Some? ==> sent.value == PlayerMove(choice) && hasPicked
      ensures sent.None? ==> hasPicked == old(hasPicked)
      ensures !MoveGuard(hasPicked, roundResult)
    {
      if !hasPicked && roundResult == None {
        sent := Some(PlayerMove(choice));
        hasPicked := true;
      } else {
        sent := None;
      }
    }

    /** `rematch()`: asks the server for a new round; no state of the page changes. */
    method Rematch() returns (sent: Outbound)
      ensures sent == RematchRequest
    {
      sent := RematchRequest;
    }

    /** `sendChat()`: emits the message as typed and clears the input, unless it is blank, in which case nothing happens. */
    method SendChat() returns (sent: Option<Outbound>)
      modifies this`message
      ensures sent.Some? <==> !JsText.IsBlank(old(message))
      ensures sent.Some? ==> sent.value == ChatOut(old(message)) && message == ""
      ensures sent.None? ==> message == old(message)
    {
      if JsText.Trim(message) != [] {
        sent := Some(ChatOut(message));
        message := "";
      } else {
        sent := None;
      }
    }
  }

  /** Two picks with no event in between: the second emits nothing, so at most one move per round leaves the page. */
  method PickTwice(g: Game, first: string, second: string) returns (a: Option<Outbound>, b: Option<Outbound>)
    modifies g
    ensures b == None
    ensures a.Some? <==> old(MoveGuard(g.hasPicked, g.roundResult))
  {
    a := g.SendMove(first);
    b := g.SendMove(second);
  }

  /**
   * A tied round seen from the page: after a move and a `round-result` with a
   * null winner the move guard and the result panel are those of a page with
   * no result, so a second move can be sent without a rematch.
   */
  method TiedRound(g: Game, first: string, mv: map<string, string>, sc: map<string, int>, second: string)
    returns (a: Option<Outbound>, b: Option<Outbound>)
    requires MoveGuard(g.hasPicked, g.roundResult)
    modifies g
    ensures a == Some(PlayerMove(first)) && b == Some(PlayerMove(second))
  {
    a := g.SendMove(first);
    g.OnRoundResult(mv, None, sc);
    b := g.SendMove(second);
  }
}
