/**
 * The points-entry conversation: one step function per handler, the routing
 * that the `ConversationHandler` in `main` sets up, and a `Chat` object that
 * runs it against the shared `Storage`.
 */
module Conversation {
  import opened Wrappers
  import Storage
  import Menu
  import Ints

  /** `PLAYER, PLAYER_REPLY, ANIM, POINTS, POINTS_REPLY = range(5)`. */
  datatype State = Player | PlayerReply | Anim | Points | PointsReply

  /** What a handler returns: the state to wait in next, or `ConversationHandler.END`. */
  datatype Next = Goto(state: State) | End

  /** A value in `context.user_data`: a message text, or whatever `query.answer()` returned. */
  datatype UserValue = Text(text: string) | Answered

  type UserData = map<string, UserValue>

  /** `InlineKeyboardButton(text, callback_data=callbackData)`. */
  datatype Button = Button(text: string, callbackData: string)

  /** A message the bot delivers, with the rows of its inline keyboard (none for a plain message). */
  datatype Reply = Reply(text: string, keyboard: seq<seq<Button>>)

  /** An incoming update: a text message, a press on an inline button, or anything else. */
  datatype Update = Message(text: string) | CallbackQuery(data: string) | Other

  /** What a handler leaves behind: the user data, the table, where to go next, what was sent. */
  datatype Outcome = Outcome(userData: UserData, table: Storage.Table, next: Next, replies: seq<Reply>)

  const PlayerPrompt := "Please enter the player's username:"
  const AnimPrompt := "Please pick your animation of choice"

  /** `pick_player`: ask for the player's username. */
  function PickPlayer(ud: UserData, t: Storage.Table): (o: Outcome)
    ensures o.userData == ud && o.table == t && o.next == Goto(PlayerReply)
    ensures o.replies == [Reply(PlayerPrompt, [])]
  {
    Outcome(ud, t, Goto(PlayerReply), [Reply(PlayerPrompt, [])])
  }

  /** `pick_player_reply`: the message text becomes `user_data['player']`. */
  function PickPlayerReply(ud: UserData, t: Storage.Table, text: string): (o: Outcome)
    ensures "player" in o.userData && o.userData["player"] == Text(text)
    ensures forall k :: k != "player" ==> (k in o.userData <==> k in ud)
    ensures forall k :: k in ud && k != "player" ==> o.userData[k] == ud[k]
    ensures o.next == Goto(Anim) && o.table == t && o.replies == []
  {
    Outcome(ud["player" := Text(text)], t, Goto(Anim), [])
  }

  /** One button per animation, labelled by it and carrying it as callback data. */
  function AnimButtons(names: seq<string>): (buttons: seq<Button>)
    ensures |buttons| == |names|
    ensures forall i :: 0 <= i < |names| ==> buttons[i] == Button(names[i], names[i])
  {
    seq(|names|, i requires 0 <= i < |names| => Button(names[i], names[i]))
  }

  /** `pick_anim`: offer every animation of `storage.read()` as a button, two per row. */
  function PickAnim(ud: UserData, t: Storage.Table): (o: Outcome)
    requires Storage.WellFormed(t)
    ensures o.userData == ud && o.table == t && o.next == Goto(Points)
    ensures |o.replies| == 1 && o.replies[0].text == AnimPrompt
  {
    var buttons := AnimButtons(Storage.Read(t, None, None).names);
    Outcome(ud, t, Goto(Points), [Reply(AnimPrompt, Menu.Menu(buttons, 2, Menu.Absent, Menu.Absent))])
  }

  /**
   * `pick_anim_reply`: stores the return value of `query.answer()` (not the
   * pressed button's data) as `user_data['animation']`.
   */
  function PickAnimReply(ud: UserData, t: Storage.Table): (o: Outcome)
    ensures "animation" in o.userData && o.userData["animation"] == Answered
    ensures forall k :: k != "animation" ==> (k in o.userData <==> k in ud)
    ensures forall k :: k in ud && k != "animation" ==> o.userData[k] == ud[k]
    ensures o.next == Goto(Points) && o.table == t && o.replies == []
  {
    Outcome(ud["animation" := Answered], t, Goto(Points), [])
  }

  /**
   * `enter_points`: without both `player` and `animation` in the user data the
   * conversation ends; otherwise it waits for the points. Neither `reply_text`
   * here is awaited, so no message is delivered on either path.
   */
  function EnterPoints(ud: UserData, t: Storage.Table): (o: Outcome)
    ensures o.next == End <==> "player" !in ud || "animation" !in ud
    ensures o.next != End ==> o.next == Goto(PointsReply)
    ensures o.userData == ud && o.table == t && o.replies == []
  {
    if "player" in ud && "animation" in ud then Outcome(ud, t, Goto(PointsReply), [])
    else Outcome(ud, t, End, [])
  }

  /** The call `storage.write(**user_data, points=n)` after Python binds its keyword arguments. */
  datatype Call = Raises | Calls(anim: UserValue, player: UserValue, points: int)

  /**
   * Binding `write(anim, player, points)` to `**user_data` plus `points=n`:
   * a `points` key is given twice, any key other than `anim` and `player` is
   * an unexpected keyword, and a missing `anim` or `player` is a missing
   * argument; each of these raises `TypeError` before `write` runs.
   */
  function BindWrite(ud: UserData, points: int): (c: Call)
    ensures c.Calls? <==> ud.Keys == {"anim", "player"}
    ensures c.Calls? ==> c.anim == ud["anim"] && c.player == ud["player"] && c.points == points
  {
    if "points" in ud then Raises
    else if !(ud.Keys <= {"anim", "player"}) then Raises
    else if "anim" !in ud || "player" !in ud then Raises
    else Calls(ud["anim"], ud["player"], points)
  }

  /**
   * The effect of the bound call on the table. An `anim` that is not text is
   * never a key of the table, so `write` swallows the `KeyError`.
   */
  function Perform(t: Storage.Table, c: Call): (t': Storage.Table)
    ensures Storage.WellFormed(t) ==> Storage.WellFormed(t')
  {
    match c
    case Calls(Text(a), Text(p), n) => Storage.Written(t, a, p, n)
    case _ => t
  }

  /**
   * `enter_points_reply`: `int(reply)`, then the write; the bare `except`
   * swallows a `ValueError` from `int` and a `TypeError` from the call, and
   * `finally` ends the conversation in every case.
   */
  function EnterPointsReply(ud: UserData, t: Storage.Table, text: string): (o: Outcome)
    ensures o.next == End && o.userData == ud && o.replies == []
    ensures Storage.WellFormed(t) ==> Storage.WellFormed(o.table)
    ensures o.table != t ==> Ints.ParseInt(text).Some? && ud.Keys == {"anim", "player"}
  {
    match Ints.ParseInt(text)
    case None => Outcome(ud, t, End, [])
    case Some(n) => Outcome(ud, Perform(t, BindWrite(ud, n)), End, [])
  }

  /** The callbacks the source defines for the conversation. */
  datatype Handler =
    | PickPlayerHandler | PickPlayerReplyHandler | PickAnimHandler
    | PickAnimReplyHandler | EnterPointsHandler | EnterPointsReplyHandler

  predicate IsCommandChar(c: char) {
    ('a' <= c <= 'z') || ('A' <= c <= 'Z') || Ints.IsDigit(c) || c == '_' || c == '@'
  }

  /** A message that opens with the bot command `/start`. */
  predicate IsStartCommand(text: string) {
    |text| >= 6 && text[..6] == "/start" && (|text| == 6 || !IsCommandChar(text[6]))
  }

  /**
   * The handler the `ConversationHandler` of `main` picks for an update:
   * outside a conversation only the `/start` entry point; inside one, the
   * text-message handler registered for the current state. `PLAYER` has no
   * handlers, there are no fallbacks, and `pick_anim_reply` is not registered.
   */
  function Route(state: Option<State>, u: Update): (h: Option<Handler>)
    ensures h != Some(PickAnimReplyHandler)
    ensures h.Some? ==> u.Message?
    ensures state.None? ==> (h.Some? <==> u.Message? && IsStartCommand(u.text))
    ensures state.None? && h.Some? ==> h == Some(PickPlayerHandler)
  {
    match state
    case None =>
      if u.Message? && IsStartCommand(u.text) then Some(PickPlayerHandler) else None
    case Some(s) =>
      if !u.Message? then None
      else
        match s
        case Player => None
        case PlayerReply => Some(PickPlayerReplyHandler)
        case Anim => Some(PickAnimHandler)
        case Points => Some(EnterPointsHandler)
        case PointsReply => Some(EnterPointsReplyHandler)
  }

  /** Runs one handler on the text of the update it was routed. */
  function Invoke(h: Handler, ud: UserData, t: Storage.Table, text: string): (o: Outcome)
    requires Storage.WellFormed(t)
    ensures Storage.WellFormed(o.table)
  {
    match h
    case PickPlayerHandler => PickPlayer(ud, t)
    case PickPlayerReplyHandler => PickPlayerReply(ud, t, text)
    case PickAnimHandler => PickAnim(ud, t)
    case PickAnimReplyHandler => PickAnimReply(ud, t)
    case EnterPointsHandler => EnterPoints(ud, t)
    case EnterPointsReplyHandler => EnterPointsReply(ud, t, text)
  }

  /** One user's conversation: its current state (`None` outside one) and `context.user_data`. */
  datatype Session = Session(state: Option<State>, userData: UserData)

  datatype Delivery = Delivery(session: Session, table: Storage.Table, replies: seq<Reply>)

  /** One update through the conversation; an update no handler takes changes nothing. */
  function Deliver(s: Session, t: Storage.Table, u: Update): (d: Delivery)
    requires Storage.WellFormed(t)
    ensures Storage.WellFormed(d.table)
  {
    match Route(s.state, u)
    case None => Delivery(s, t, [])
    case Some(h) =>
      var o := Invoke(h, s.userData, t, u.text);
      Delivery(Session(if o.next.End? then None else Some(o.next.state), o.userData), o.table, o.replies)
  }

  /** A sequence of updates, one after the other; the replies in the order they were sent. */
  function Run(s: Session, t: Storage.Table, us: seq<Update>): (d: Delivery)
    requires Storage.WellFormed(t)
    ensures Storage.WellFormed(d.table)
    decreases |us|
  {
    if us == [] then Delivery(s, t, [])
    else
      var first := Deliver(s, t, us[0]);
      var rest := Run(first.session, first.table, us[1..]);
      Delivery(rest.session, rest.table, first.replies + rest.replies)
  }

  /** `pick_anim`'s keyboard lists every animation once, in table order, two to a row except perhaps the last. */
  lemma PickAnimKeyboard(ud: UserData, t: Storage.Table)
    requires Storage.WellFormed(t)
    ensures var o := PickAnim(ud, t);
      && |o.replies| == 1
      && Menu.Flatten(o.replies[0].keyboard) == AnimButtons(t.keys)
      && (forall i :: 0 <= i < |o.replies[0].keyboard| ==> 1 <= |o.replies[0].keyboard[i]| <= 2)
      && (forall i :: 0 <= i < |o.replies[0].keyboard| - 1 ==> |o.replies[0].keyboard[i]| == 2)
  {
    var buttons := AnimButtons(t.keys);
    Menu.MenuFlatten(buttons, 2, Menu.Absent, Menu.Absent);
    Menu.ChunksRows(buttons, 2);
    assert Menu.Menu(buttons, 2, Menu.Absent, Menu.Absent) == Menu.Chunks(buttons, 2);
  }

  /**
   * `enter_points_reply` can only change the table when the user data holds
   * exactly an `anim` and a `player` text and the reply is an integer; then it
   * is `write(anim, player, n)`.
   */
  lemma EnterPointsReplyWrites(ud: UserData, t: Storage.Table, text: string, a: string, p: string, n: int)
    requires ud == map["anim" := Text(a), "player" := Text(p)] && Ints.ParseInt(text) == Some(n)
    ensures EnterPointsReply(ud, t, text).table == Storage.Written(t, a, p, n)
  {
    assert ud.Keys == {"anim", "player"};
  }

  /** Once `pick_anim_reply` has stored `animation`, the write in `enter_points_reply` always raises. */
  lemma AnimationKeyBreaksWrite(ud: UserData, t: Storage.Table, text: string)
    requires "animation" in ud
    ensures EnterPointsReply(ud, t, text).table == t
  {
  }

  /** User data that neither handler can turn into a write. */
  predicate Inert(ud: UserData) {
    "animation" !in ud && "anim" !in ud
  }

  lemma DeliverInert(s: Session, t: Storage.Table, u: Update)
    requires Storage.WellFormed(t) && Inert(s.userData)
    ensures var d := Deliver(s, t, u);
      && d.table == t && Inert(d.session.userData)
      && (s.state != Some(PointsReply) ==> d.session.state != Some(PointsReply))
  {
  }

  /**
   * With the handlers as wired, no user data ever gains `animation` or `anim`:
   * the table never changes, and a conversation that is not already waiting
   * for points never comes to wait for them.
   */
  lemma {:induction false} WiredRunInert(s: Session, t: Storage.Table, us: seq<Update>)
    requires Storage.WellFormed(t) && Inert(s.userData)
    ensures var d := Run(s, t, us);
      && d.table == t && Inert(d.session.userData)
      && (s.state != Some(PointsReply) ==> d.session.state != Some(PointsReply))
    decreases |us|
  {
    if us != [] {
      DeliverInert(s, t, us[0]);
      var first := Deliver(s, t, us[0]);
      WiredRunInert(first.session, first.table, us[1..]);
    }
  }

  /** From a user's first contact, no sequence of updates ever records points in the dummy table. */
  lemma PointsNeverRecorded(us: seq<Update>)
    ensures Run(Session(None, map[]), Storage.DummyTable(), us).table == Storage.DummyTable()
    ensures Run(Session(None, map[]), Storage.DummyTable(), us).session.state != Some(PointsReply)
  {
    WiredRunInert(Session(None, map[]), Storage.DummyTable(), us);
  }

  /** `/start` outside a conversation runs `pick_player`. */
  lemma DeliverStart(ud: UserData, t: Storage.Table)
    requires Storage.WellFormed(t)
    ensures Deliver(Session(None, ud), t, Message("/start"))
      == Delivery(Session(Some(PlayerReply), ud), t, [Reply(PlayerPrompt, [])])
  {
    assert IsStartCommand("/start");
  }

  /** Any text while in `PLAYER_REPLY` becomes the player. */
  lemma DeliverAtPlayerReply(ud: UserData, t: Storage.Table, text: string)
    requires Storage.WellFormed(t)
    ensures Deliver(Session(Some(PlayerReply), ud), t, Message(text))
      == Delivery(Session(Some(Anim), ud["player" := Text(text)]), t, [])
  {
  }

  /** Any text while in `ANIM` runs `pick_anim`; the user data and the table stay as they are. */
  lemma DeliverAtAnim(ud: UserData, t: Storage.Table, text: string)
    requires Storage.WellFormed(t)
    ensures Deliver(Session(Some(Anim), ud), t, Message(text))
      == Delivery(Session(Some(Points), ud), t, PickAnim(ud, t).replies)
  {
    assert Route(Some(Anim), Message(text)) == Some(PickAnimHandler);
    var o := PickAnim(ud, t);
    assert Invoke(PickAnimHandler, ud, t, text) == o;
    assert o.next == Goto(Points) && o.userData == ud && o.table == t;
  }

  /** Any text while in `POINTS` without an `animation` ends the conversation silently. */
  lemma DeliverAtPoints(ud: UserData, t: Storage.Table, text: string)
    requires Storage.WellFormed(t) && "animation" !in ud
    ensures Deliver(Session(Some(Points), ud), t, Message(text)) == Delivery(Session(None, ud), t, [])
  {
  }

  lemma RunFirst(s: Session, t: Storage.Table, u: Update, us: seq<Update>)
    requires Storage.WellFormed(t)
    ensures var first := Deliver(s, t, u);
      var rest := Run(first.session, first.table, us);
      Run(s, t, [u] + us) == Delivery(rest.session, rest.table, first.replies + rest.replies)
  {
    assert ([u] + us)[1..] == us;
  }

  /**
   * The whole wired flow: `/start`, a username, any text at `ANIM`, then the
   * points, which end the conversation at `enter_points` without a write.
   */
  lemma Walkthrough(t: Storage.Table, name: string, pick: string, points: string)
    requires Storage.WellFormed(t)
    ensures Run(Session(None, map[]), t, [Message("/start"), Message(name), Message(pick), Message(points)])
      == Delivery(Session(None, map["player" := Text(name)]), t, [Reply(PlayerPrompt, [])] + PickAnim(map["player" := Text(name)], t).replies)
  {
    var ud := map["player" := Text(name)];
    var keyboard := PickAnim(ud, t).replies;
    var s0, s1, s2, s3 := Session(None, map[]), Session(Some(PlayerReply), map[]), Session(Some(Anim), ud), Session(Some(Points), ud);
    var done := Session(None, ud);
    DeliverAtPoints(ud, t, points);
    RunFirst(s3, t, Message(points), []);
    assert [Message(points)] == [Message(points)] + [];
    assert Run(done, t, []) == Delivery(done, t, []);
    var r3 := Run(s3, t, [Message(points)]);
    assert r3 == Delivery(done, t, []);
    DeliverAtAnim(ud, t, pick);
    RunFirst(s2, t, Message(pick), [Message(points)]);
    assert [Message(pick), Message(points)] == [Message(pick)] + [Message(points)];
    var r2 := Run(s2, t, [Message(pick), Message(points)]);
    assert r2 == Delivery(done, t, keyboard);
    DeliverAtPlayerReply(map[], t, name);
    RunFirst(s1, t, Message(name), [Message(pick), Message(points)]);
    assert [Message(name), Message(pick), Message(points)] == [Message(name)] + [Message(pick), Message(points)];
    var r1 := Run(s1, t, [Message(name), Message(pick), Message(points)]);
    assert r1 == Delivery(done, t, keyboard);
    DeliverStart(map[], t);
    RunFirst(s0, t, Message("/start"), [Message(name), Message(pick), Message(points)]);
    assert [Message("/start"), Message(name), Message(pick), Message(points)]
      == [Message("/start")] + [Message(name), Message(pick), Message(points)];
  }

  /** The conversation and the user data of one user, as the running bot keeps them. */
  class Chat {
    var state: Option<State>
    var userData: UserData

    constructor ()
      ensures state == None && userData == map[]
    {
      state := None;
      userData := map[];
    }

    /** Runs one handler, which updates the user data and the storage in place. */
    method Handle(h: Handler, text: string, store: Storage.Storage) returns (next: Next, replies: seq<Reply>)
      requires store.Valid()
      modifies this, store
      ensures store.Valid() && state == old(state)
      ensures var o := Invoke(h, old(userData), old(store.table), text);
        && userData == o.userData && store.table == o.table && next == o.next && replies == o.replies
    {
      replies := [];
      match h {
        case PickPlayerHandler =>
          replies := [Reply(PlayerPrompt, [])];
          next := Goto(PlayerReply);
        case PickPlayerReplyHandler =>
          userData := userData["player" := Text(text)];
          next := Goto(Anim);
        case PickAnimHandler =>
          var buttons := AnimButtons(Storage.Read(store.table, None, None).names);
          var keyboard := Menu.BuildMenu(buttons, 2, Menu.Absent, Menu.Absent);
          replies := [Reply(AnimPrompt, keyboard)];
          next := Goto(Points);
        case PickAnimReplyHandler =>
          userData := userData["animation" := Answered];
          next := Goto(Points);
        case EnterPointsHandler =>
          next := if "player" in userData && "animation" in userData then Goto(PointsReply) else End;
        case EnterPointsReplyHandler =>
          var points := Ints.ParseInt(text);
          if points.Some? {
            var call := BindWrite(userData, points.value);
            if call.Calls? && call.anim.Text? && call.player.Text? {
              store.Write(call.anim.text, call.player.text, call.points);
            }
          }
          next := End;
      }
    }

    /** Hands one update to the handler `Route` picks; `END` closes the conversation. */
    method Receive(u: Update, store: Storage.Storage) returns (replies: seq<Reply>)
      requires store.Valid()
      modifies this, store
      ensures store.Valid()
      ensures var d := Deliver(Session(old(state), old(userData)), old(store.table), u);
        && Session(state, userData) == d.session && store.table == d.table && replies == d.replies
    {
      replies := [];
      var route := Route(state, u);
      if route.Some? {
        var next;
        next, replies := Handle(route.value, u.text, store);
        state := if next.End? then None else Some(next.state);
      }
    }
  }
}
