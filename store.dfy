/**
  The per-session turn store behind the /chat, /history and /clear handlers
  (app/routes.py) over the `Conversation` record (app/models.py). The database
  table is an in-memory sequence of turns in insertion order; identifiers and
  timestamps come from counters the store advances, so the sequence order is the
  timestamp order the queries sort by.
*/
module Store {
  import opened Wrappers
  import opened Text
  import opened Prompt
  import opened Inference

  /** One `Conversation` row. */
  datatype Turn = Turn(id: nat, sessionId: string, userInput: string, aiResponse: string, timestamp: nat)

  /** One entry of the /history answer: `{"user": ..., "ai": ..., "time": ...}`. */
  datatype HistoryItem = HistoryItem(user: string, ai: string, time: nat)

  /** The /history answer: a bare `[]` when the caller has no session, else `{"history": [...]}`. */
  datatype HistoryReply = NoSession | Listed(items: seq<HistoryItem>)

  /** The /chat answer: 400 with an error, 500 with an error, or the reply and a timestamp. */
  datatype ChatReply = BadRequest(error: string) | ServerError(error: string) | Replied(response: string, timestamp: nat)

  /** The 400 error text for an empty or whitespace-only message. */
  const EmptyRequestError: string := "Пустой запрос"

  /** `str(KeyError("session_id"))`: the 500 error text when the caller has no session. */
  const MissingSessionError: string := "'session_id'"

  /**
    The turns whose session is `sid` (when `same`) or is not `sid` (otherwise),
    in their stored order.
  */
  function Where(turns: seq<Turn>, sid: string, same: bool): seq<Turn>
  {
    if turns == [] then []
    else
      var last := turns[|turns| - 1];
      Where(turns[..|turns| - 1], sid, same) + (if (last.sessionId == sid) == same then [last] else [])
  }

  /** `Conversation.query.filter_by(session_id=sid)`, in stored order. */
  function SessionOf(turns: seq<Turn>, sid: string): seq<Turn>
  {
    Where(turns, sid, true)
  }

  /** What is left after `Conversation.query.filter_by(session_id=sid).delete()`. */
  function WithoutSession(turns: seq<Turn>, sid: string): seq<Turn>
  {
    Where(turns, sid, false)
  }

  /** Identifiers and timestamps strictly increase along the stored order. */
  ghost predicate Ordered(turns: seq<Turn>)
  {
    forall i, j :: 0 <= i < j < |turns| ==> turns[i].id < turns[j].id && turns[i].timestamp < turns[j].timestamp
  }

  /** The elements of `s` in reverse order. */
  function Reversed<T>(s: seq<T>): seq<T>
  {
    seq(|s|, i requires 0 <= i < |s| => s[|s| - 1 - i])
  }

  /** SQL's `LIMIT n`: the first `n` elements, or all of them. */
  function Limit<T>(s: seq<T>, n: nat): seq<T>
  {
    if |s| <= n then s else s[..n]
  }

  /**
    chat's context query: the session's turns newest first (timestamp descending),
    limited to ten, then reversed back.
  */
  function RecentTurns(turns: seq<Turn>, sid: string): seq<Turn>
  {
    Reversed(Limit(Reversed(SessionOf(turns, sid)), ContextLimit))
  }

  /** chat's `history` list handed to generation: one exchange per turn, same order. */
  function Exchanges(turns: seq<Turn>): seq<Exchange>
  {
    seq(|turns|, i requires 0 <= i < |turns| => Exchange(turns[i].userInput, turns[i].aiResponse))
  }

  /** The /history entry for a turn. */
  function ItemOf(t: Turn): HistoryItem
  {
    HistoryItem(t.userInput, t.aiResponse, t.timestamp)
  }

  /** chat's `data.get("message", "").strip()`. */
  function UserInput(message: Option<string>): string
  {
    Strip(if message.Some? then message.value else "")
  }

  /** The selected turns are exactly the turns of the table that match. */
  lemma {:induction false} WhereMembers(turns: seq<Turn>, sid: string, same: bool)
    ensures forall t :: t in Where(turns, sid, same) <==> t in turns && (t.sessionId == sid) == same
  {
    if turns != [] {
      var init := turns[..|turns| - 1];
      assert turns == init + [turns[|turns| - 1]];
      WhereMembers(init, sid, same);
    }
  }

  /** Keeping a subset of an ordered table leaves it ordered. */
  lemma {:induction false} WhereOrdered(turns: seq<Turn>, sid: string, same: bool)
    requires Ordered(turns)
    ensures Ordered(Where(turns, sid, same))
  {
    if turns != [] {
      var init := turns[..|turns| - 1];
      var last := turns[|turns| - 1];
      assert Ordered(init);
      WhereOrdered(init, sid, same);
      WhereMembers(init, sid, same);
      var w := Where(init, sid, same);
      forall t | t in w ensures t.id < last.id && t.timestamp < last.timestamp {
        var i :| 0 <= i < |init| && init[i] == t;
        assert turns[i] == t;
      }
      if (last.sessionId == sid) == same {
        AppendOrdered(w, last);
      }
    }
  }

  /** A turn newer than every stored turn keeps the table ordered. */
  lemma AppendOrdered(turns: seq<Turn>, t: Turn)
    requires Ordered(turns)
    requires forall u :: u in turns ==> u.id < t.id && u.timestamp < t.timestamp
    ensures Ordered(turns + [t])
  {
  }

  /** Selecting from a table with one more turn selects that turn last, if at all. */
  lemma WhereAppend(turns: seq<Turn>, t: Turn, sid: string, same: bool)
    ensures Where(turns + [t], sid, same) == Where(turns, sid, same) + (if (t.sessionId == sid) == same then [t] else [])
  {
  }

  /** Appending a turn adds it to its own session's turns and to no other session's. */
  lemma SessionOfAppend(turns: seq<Turn>, t: Turn)
    ensures SessionOf(turns + [t], t.sessionId) == SessionOf(turns, t.sessionId) + [t]
    ensures forall other :: other != t.sessionId ==> SessionOf(turns + [t], other) == SessionOf(turns, other)
  {
  }

  /** The context window is exactly the session's last ten turns, oldest first. */
  lemma RecentIsLastTen(turns: seq<Turn>, sid: string)
    ensures RecentTurns(turns, sid) == LastAtMost(SessionOf(turns, sid), ContextLimit)
  {
  }

  /**
    Every turn of the session's context window reaches the model: turn k of the session,
    when it is among the last ten, is sent as a user message at 1+2(k-start) and its
    answer as an assistant message at 2+2(k-start), where `start` is the first kept turn.
  */
  lemma ChatPromptCarriesSessionTurns(turns: seq<Turn>, sid: string, input: string, mine: seq<Turn>, start: int, k: int)
    requires mine == SessionOf(turns, sid)
    requires start == |mine| - (if |mine| <= ContextLimit then |mine| else ContextLimit)
    requires start <= k < |mine|
    ensures var m := PromptMessages(input, Exchanges(RecentTurns(turns, sid)));
      && 2 + 2 * (k - start) < |m|
      && m[1 + 2 * (k - start)] == Message(User, mine[k].userInput)
      && m[2 + 2 * (k - start)] == Message(Assistant, mine[k].aiResponse)
  {
    RecentIsLastTen(turns, sid);
    var window := RecentTurns(turns, sid);
    assert |window| == |mine| - start && window[k - start] == mine[k];
    WindowReachesModel(input, window, k - start);
  }

  /** Turn j of a context window of at most ten turns is sent at 1+2j and answered at 2+2j. */
  lemma WindowReachesModel(input: string, window: seq<Turn>, j: int)
    requires |window| <= ContextLimit && 0 <= j < |window|
    ensures var m := PromptMessages(input, Exchanges(window));
      && 2 + 2 * j < |m|
      && m[1 + 2 * j] == Message(User, window[j].userInput)
      && m[2 + 2 * j] == Message(Assistant, window[j].aiResponse)
  {
    var history := Exchanges(window);
    assert |history| == |window| && history[j] == Exchange(window[j].userInput, window[j].aiResponse);
    PromptCarriesWindow(input, history, j);
  }

  /** Right after a turn is stored, it is the newest turn of the context window. */
  lemma NewestTurnInContext(turns: seq<Turn>, t: Turn)
    ensures var r := RecentTurns(turns + [t], t.sessionId); |r| > 0 && r[|r| - 1] == t
  {
  }

  /** After clearing a session, nothing of it is left. */
  lemma {:induction false} ClearEmptiesSession(turns: seq<Turn>, sid: string)
    ensures SessionOf(WithoutSession(turns, sid), sid) == []
  {
    if turns != [] {
      var init := turns[..|turns| - 1];
      var last := turns[|turns| - 1];
      ClearEmptiesSession(init, sid);
      if last.sessionId != sid {
        WhereAppend(WithoutSession(init, sid), last, sid, true);
      } else {
        assert WithoutSession(turns, sid) == WithoutSession(init, sid);
      }
    }
  }

  /** Clearing a session leaves every other session's turns as they were, in order. */
  lemma {:induction false} ClearKeepsOthers(turns: seq<Turn>, sid: string, other: string)
    requires other != sid
    ensures SessionOf(WithoutSession(turns, sid), other) == SessionOf(turns, other)
  {
    if turns != [] {
      var init := turns[..|turns| - 1];
      var last := turns[|turns| - 1];
      assert turns == init + [last];
      ClearKeepsOthers(init, sid, other);
      if last.sessionId != sid {
        WhereAppend(WithoutSession(init, sid), last, other, true);
      } else {
        assert WithoutSession(turns, sid) == WithoutSession(init, sid);
        assert SessionOf(turns, other) == SessionOf(init, other);
      }
    }
  }

  /** Clearing the same session twice is the same as clearing it once. */
  lemma {:induction false} ClearTwice(turns: seq<Turn>, sid: string)
    ensures WithoutSession(WithoutSession(turns, sid), sid) == WithoutSession(turns, sid)
  {
    if turns != [] {
      var init := turns[..|turns| - 1];
      var last := turns[|turns| - 1];
      assert turns == init + [last];
      ClearTwice(init, sid);
      if last.sessionId != sid {
        WhereAppend(WithoutSession(init, sid), last, sid, false);
      } else {
        assert WithoutSession(turns, sid) == WithoutSession(init, sid);
      }
    }
  }

  /** A session that never chatted has no turns. */
  lemma {:induction false} UnknownSessionEmpty(turns: seq<Turn>, sid: string)
    requires forall t :: t in turns ==> t.sessionId != sid
    ensures SessionOf(turns, sid) == []
  {
    if turns != [] {
      var init := turns[..|turns| - 1];
      assert turns == init + [turns[|turns| - 1]];
      UnknownSessionEmpty(init, sid);
    }
  }

  /** The table of `Conversation` rows, with its id sequence and its clock. */
  class TurnStore {
    var turns: seq<Turn>
    var nextId: nat
    var clock: nat

    ghost predicate Valid()
      reads this
    {
      && Ordered(turns)
      && (forall t :: t in turns ==> t.id < nextId && t.timestamp < clock)
    }

    constructor()
      ensures Valid() && turns == []
    {
      turns := [];
      nextId := 1;
      clock := 0;
    }

    /**
      get_history: no session gives a bare empty list; otherwise the session's turns,
      all of them and only them, in strictly ascending time.
    */
    function History(session: Option<string>): (r: HistoryReply)
      reads this
      requires Valid()
      ensures session.None? <==> r == NoSession
      ensures session.Some? ==>
        var mine := SessionOf(turns, session.value);
        && |r.items| == |mine|
        && (forall i :: 0 <= i < |mine| ==> r.items[i] == ItemOf(mine[i]))
        && (forall i, j :: 0 <= i < j < |r.items| ==> r.items[i].time < r.items[j].time)
    {
      match session
      case None => NoSession
      case Some(sid) =>
        var mine := SessionOf(turns, sid);
        WhereOrdered(turns, sid, true);
        Listed(seq(|mine|, i requires 0 <= i < |mine| => ItemOf(mine[i])))
    }

    /**
      chat: an empty or whitespace-only message is refused with 400 before anything
      else; a caller without a session gets 500; otherwise the session's ten latest
      turns, oldest first, go into one gateway call and exactly one turn is stored.
    */
    method Chat(session: Option<string>, message: Option<string>, gateway: Gateway) returns (r: ChatReply)
      requires Valid()
      modifies this, gateway
      ensures Valid()
      ensures UserInput(message) == [] ==>
        && r == BadRequest(EmptyRequestError)
        && unchanged(this) && gateway.requests == old(gateway.requests)
      ensures UserInput(message) != [] && session.None? ==>
        && r == ServerError(MissingSessionError)
        && unchanged(this) && gateway.requests == old(gateway.requests)
      ensures UserInput(message) != [] && session.Some? ==>
        var sid := session.value;
        var prompt := PromptMessages(UserInput(message), Exchanges(RecentTurns(old(turns), sid)));
        var stored := Turn(old(nextId), sid, UserInput(message), ReplyText(gateway.respond(prompt)), old(clock));
        && gateway.requests == old(gateway.requests) + [prompt]
        && turns == old(turns) + [stored]
        && SessionOf(turns, sid) == SessionOf(old(turns), sid) + [stored]
        && (forall other :: other != sid ==> SessionOf(turns, other) == SessionOf(old(turns), other))
        && nextId == old(nextId) + 1 && clock == old(clock) + 2
        && r == Replied(stored.aiResponse, old(clock) + 1)
    {
      var input := UserInput(message);
      if input == [] {
        return BadRequest(EmptyRequestError);
      }
      if session.None? {
        return ServerError(MissingSessionError);
      }
      r := Converse(session.value, input, gateway);
    }

    /**
      The guarded part of chat for a caller with a session: read the context, generate
      the reply (the failure sentinel included), store the turn, answer with the time.
    */
    method Converse(sid: string, input: string, gateway: Gateway) returns (r: ChatReply)
      requires Valid()
      modifies this, gateway
      ensures Valid()
      ensures var prompt := PromptMessages(input, Exchanges(RecentTurns(old(turns), sid)));
        var stored := Turn(old(nextId), sid, input, ReplyText(gateway.respond(prompt)), old(clock));
        && gateway.requests == old(gateway.requests) + [prompt]
        && turns == old(turns) + [stored]
        && SessionOf(turns, sid) == SessionOf(old(turns), sid) + [stored]
        && (forall other :: other != sid ==> SessionOf(turns, other) == SessionOf(old(turns), other))
        && nextId == old(nextId) + 1 && clock == old(clock) + 2
        && r == Replied(stored.aiResponse, old(clock) + 1)
    {
      var history := Exchanges(RecentTurns(turns, sid));
      var reply := GenerateAiResponse(gateway, input, history);
      var stored := Add(sid, input, reply);
      var now := Now();
      r := Replied(reply, now);
    }

    /** `datetime.utcnow()`: reads the store's clock, which then moves on. */
    method Now() returns (now: nat)
      requires Valid()
      modifies this
      ensures Valid()
      ensures now == old(clock) && clock == old(clock) + 1
      ensures turns == old(turns) && nextId == old(nextId)
    {
      now := clock;
      clock := clock + 1;
    }

    /**
      `db.session.add(conv); db.session.commit()`: stores one new turn with the next
      identifier and the current time, after every other turn.
    */
    method Add(sid: string, input: string, reply: string) returns (stored: Turn)
      requires Valid()
      modifies this
      ensures Valid()
      ensures stored == Turn(old(nextId), sid, input, reply, old(clock))
      ensures turns == old(turns) + [stored]
      ensures SessionOf(turns, sid) == SessionOf(old(turns), sid) + [stored]
      ensures forall other :: other != sid ==> SessionOf(turns, other) == SessionOf(old(turns), other)
      ensures nextId == old(nextId) + 1 && clock == old(clock) + 1
    {
      stored := Turn(nextId, sid, input, reply, clock);
      SessionOfAppend(turns, stored);
      AppendOrdered(turns, stored);
      turns := turns + [stored];
      nextId := nextId + 1;
      clock := clock + 1;
    }

    /**
      clear_history: removes every turn of the caller's session and nothing else.
      Without a session the handler raises and the store is untouched.
    */
    method Clear(session: Option<string>) returns (ok: bool)
      requires Valid()
      modifies this
      ensures Valid()
      ensures ok <==> session.Some?
      ensures nextId == old(nextId) && clock == old(clock)
      ensures session.None? ==> turns == old(turns)
      ensures session.Some? ==>
        && turns == WithoutSession(old(turns), session.value)
        && SessionOf(turns, session.value) == []
        && (forall other :: other != session.value ==> SessionOf(turns, other) == SessionOf(old(turns), other))
    {
      if session.None? {
        return false;
      }
      var sid := session.value;
      WhereOrdered(turns, sid, false);
      WhereMembers(turns, sid, false);
      ClearEmptiesSession(turns, sid);
      forall other | other != sid ensures SessionOf(WithoutSession(turns, sid), other) == SessionOf(turns, other) {
        ClearKeepsOthers(turns, sid, other);
      }
      turns := WithoutSession(turns, sid);
      ok := true;
    }
  }

  /** On a fresh store, a first "hello" is answered and becomes the session's only history entry. */
  method FirstChatScenario(respond: seq<Message> -> GatewayOutcome) returns (first: HistoryReply)
    ensures first.Listed? && |first.items| == 1 && first.items[0].user == "hello"
  {
    var store := new TurnStore();
    var gateway := new Gateway(respond);
    assert !IsWhitespace('h') && !IsWhitespace('o');
    assert TrimStart("hello") == "hello";
    assert TrimEnd("hello") == "hello";
    var r := store.Chat(Some("s"), Some("hello"), gateway);
    first := store.History(Some("s"));
    WhereAppend([], store.turns[0], "s", true);
  }

  /** A whitespace-only message is refused and leaves the session's history empty. */
  method BlankMessageScenario(respond: seq<Message> -> GatewayOutcome) returns (blank: ChatReply, after: HistoryReply)
    ensures blank == BadRequest(EmptyRequestError)
    ensures after == Listed([])
  {
    assert IsWhitespace(' ') && IsWhitespace('\t');
    assert AllWhitespace(" \t ");
    StripEmptyIffBlank(" \t ");
    var store := new TurnStore();
    var gateway := new Gateway(respond);
    blank := store.Chat(Some("s"), Some(" \t "), gateway);
    after := store.History(Some("s"));
  }
}
