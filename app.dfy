/**
 * The chat turn controller of the application shell (App.tsx): the message
 * log, the busy flag, the error banner, the session handle, who is logged in
 * and which view is shown, and the one exchange of a user message for a
 * streamed assistant reply, with the emergency short-circuit.
 */
module App {
  import opened Wrappers
  import opened Types
  import opened Text

  /** The one tool the session declares. */
  const EmergencyTool := "CALL_EMERGENCY"
  /** Where the emergency path sends the browser. */
  const DialTarget := "tel:190"

  const EmergencyText := "Situação de emergência detectada. Iniciando chamada para 190. Se estiver em um local seguro, aguarde o atendimento. Se não for uma emergência, cancele a ligação."
  const SendErrorText := "Desculpe, não consegui processar sua mensagem. Tente novamente."
  const UnavailableText := "O assistente de chat não está disponível."
  const MissingKeyText := "Não foi possível iniciar o assistente. Verifique a chave da API."
  const InitErrorText := "Ocorreu um erro ao inicializar o assistente."

  /** The greeting every fresh log starts with. */
  const InitialMessage := Message(
    "initial-message",
    "Olá! Eu sou o Terapeuta de Bolso. Estou aqui para oferecer um espaço seguro para você respirar e encontrar calma. Como você está se sentindo agora?",
    Bot,
    false)

  /** One unit of the reply stream: an optional text and optional function-call names. */
  datatype Chunk = Chunk(text: Option<string>, functionCalls: Option<seq<string>>)

  /**
   * A reply stream as the controller sees it: the chunks it delivers, and
   * whether it then throws instead of ending. A stream that cannot even be
   * opened is `Stream([], true)`.
   */
  datatype Stream = Stream(chunks: seq<Chunk>, fails: bool)

  /** The opaque chat session handle. */
  datatype Session = Session(handle: nat)

  /** What creating the session at start-up gives: a handle, `null`, or an exception. */
  datatype SessionResult = Created(session: Session) | Unavailable | Threw

  datatype View = ChatView | HistoryView | ExercisesView

  /** The chunk calls the emergency tool (an empty call list is truthy but matches nothing). */
  predicate IsEmergency(c: Chunk)
  {
    c.functionCalls.Some? && EmergencyTool in c.functionCalls.value
  }

  /** `chunk.text` is truthy: present and non-empty. */
  predicate HasText(c: Chunk)
  {
    c.text.Some? && c.text.value != ""
  }

  /** What the chunk adds to the reply. */
  function Fragment(c: Chunk): (r: string)
    ensures r == "" <==> !HasText(c)
  {
    if HasText(c) then c.text.value else ""
  }

  /** The concatenation, in order, of the text fragments of `cs`. */
  function Accumulated(cs: seq<Chunk>): string
  {
    if cs == [] then "" else Accumulated(cs[..|cs| - 1]) + Fragment(cs[|cs| - 1])
  }

  /** The index of the first chunk that calls the emergency tool, if any. */
  function FirstEmergency(cs: seq<Chunk>): (k: Option<nat>)
    ensures k.Some? ==> k.value < |cs| && IsEmergency(cs[k.value])
  {
    if cs == [] then None
    else if IsEmergency(cs[0]) then Some(0)
    else match FirstEmergency(cs[1..])
      case None => None
      case Some(j) => Some(j + 1)
  }

  /** No chunk before the one `FirstEmergency` finds calls the tool, and without one none does. */
  lemma {:induction false} FirstEmergencyIsFirst(cs: seq<Chunk>)
    ensures FirstEmergency(cs).Some? ==> forall j :: 0 <= j < FirstEmergency(cs).value ==> !IsEmergency(cs[j])
    ensures FirstEmergency(cs).None? ==> forall j :: 0 <= j < |cs| ==> !IsEmergency(cs[j])
  {
    if cs != [] && !IsEmergency(cs[0]) {
      FirstEmergencyIsFirst(cs[1..]);
      assert forall j :: 0 < j < |cs| ==> cs[j] == cs[1..][j - 1];
    }
  }

  /** No entry of the log is loading. */
  ghost predicate NoneLoading(log: seq<Message>)
  {
    forall i :: 0 <= i < |log| ==> !log[i].isLoading
  }

  /** The log with every entry whose id is `id` given the text `t`. */
  function SetText(log: seq<Message>, id: string, t: string): (r: seq<Message>)
    ensures |r| == |log|
  {
    if log == [] then []
    else [if log[0].id == id then log[0].(text := t) else log[0]] + SetText(log[1..], id, t)
  }

  /** `SetText` changes the text of the entries `id` names and nothing else. */
  lemma {:induction false} SetTextEntries(log: seq<Message>, id: string, t: string)
    ensures forall i :: 0 <= i < |log| ==>
      SetText(log, id, t)[i] == if log[i].id == id then log[i].(text := t) else log[i]
  {
    if log != [] {
      SetTextEntries(log[1..], id, t);
    }
  }

  /** The log with every entry whose id is `id` given the text `t` and no longer loading. */
  function Settle(log: seq<Message>, id: string, t: string): (r: seq<Message>)
    ensures |r| == |log|
  {
    if log == [] then []
    else [if log[0].id == id then log[0].(text := t, isLoading := false) else log[0]] + Settle(log[1..], id, t)
  }

  /** `Settle` finishes the entries `id` names and leaves the others alone. */
  lemma {:induction false} SettleEntries(log: seq<Message>, id: string, t: string)
    ensures forall i :: 0 <= i < |log| ==>
      Settle(log, id, t)[i] == if log[i].id == id then log[i].(text := t, isLoading := false) else log[i]
  {
    if log != [] {
      SettleEntries(log[1..], id, t);
    }
  }

  /** The log without the entries whose id is `id`, the others in their order. */
  function Without(log: seq<Message>, id: string): (r: seq<Message>)
    ensures |r| <= |log|
  {
    if log == [] then []
    else (if log[0].id == id then [] else [log[0]]) + Without(log[1..], id)
  }

  /** `Without` keeps exactly the entries whose id is not `id`. */
  lemma {:induction false} WithoutMembers(log: seq<Message>, id: string)
    ensures forall m :: m in Without(log, id) <==> m in log && m.id != id
  {
    if log != [] {
      WithoutMembers(log[1..], id);
      assert log == [log[0]] + log[1..];
    }
  }

  /** `Without` leaves a log in which `id` names nothing as it is. */
  lemma {:induction false} WithoutFresh(log: seq<Message>, id: string)
    requires FreshId(log, id)
    ensures Without(log, id) == log
  {
    if log != [] {
      WithoutFresh(log[1..], id);
      assert log == [log[0]] + log[1..];
    }
  }

  function UserMessage(id: string, text: string): Message
  {
    Message(id, text, User, false)
  }

  /** The loading reply entry a turn opens with. */
  function Placeholder(id: string): Message
  {
    Message(id, "", Bot, true)
  }

  /** The terminal entry of the emergency path. */
  function SystemMessage(id: string): Message
  {
    Message(id, EmergencyText, Bot, false)
  }

  /** The log once a turn has started: the user's message, then the placeholder. */
  function StartedLog(log: seq<Message>, text: string, userId: string, botId: string): (r: seq<Message>)
    ensures |r| == |log| + 2 && r[..|log|] == log
    ensures r[|log|] == UserMessage(userId, text) && r[|log| + 1] == Placeholder(botId)
  {
    log + [UserMessage(userId, text), Placeholder(botId)]
  }

  /**
   * The log after the chunks `cs` of a stream without emergency call have
   * been consumed, chunk by chunk: each chunk with text republishes the log
   * with the entries `id` names set to the accumulated reply.
   */
  function Streamed(start: seq<Message>, id: string, cs: seq<Chunk>): (r: seq<Message>)
    ensures |r| == |start|
  {
    if cs == [] then start
    else
      var prev := Streamed(start, id, cs[..|cs| - 1]);
      if HasText(cs[|cs| - 1]) then SetText(prev, id, Accumulated(cs)) else prev
  }

  /**
   * Where a started turn settles: on the first emergency call, the
   * placeholder is dropped and the emergency message appended; otherwise the
   * placeholder gets the whole reply, or the error text if the stream threw,
   * and stops loading.
   */
  function SettledLog(started: seq<Message>, botId: string, systemId: string, s: Stream): (r: seq<Message>)
    ensures FirstEmergency(s.chunks).None? ==> |r| == |started|
    ensures FirstEmergency(s.chunks).Some? ==> 1 <= |r| <= |started| + 1 && r[|r| - 1] == SystemMessage(systemId)
  {
    if FirstEmergency(s.chunks).Some? then Without(started, botId) + [SystemMessage(systemId)]
    else if s.fails then Settle(started, botId, SendErrorText)
    else Settle(started, botId, Accumulated(s.chunks))
  }

  /** The send guard: busy, blank input or no session. */
  predicate Blocked(isLoading: bool, text: string, session: Option<Session>)
  {
    isLoading || Trim(text) == "" || session.None?
  }

  /** `id` names no entry of the log. */
  ghost predicate FreshId(log: seq<Message>, id: string)
  {
    forall i :: 0 <= i < |log| ==> log[i].id != id
  }

  // ---------------------------------------------------------------------
  // Properties of the stream accumulation

  /** The reply shown never shrinks: an earlier accumulation is a prefix of a later one. */
  lemma {:induction false} AccumulatedGrows(cs: seq<Chunk>, i: nat)
    requires i <= |cs|
    ensures Accumulated(cs[..i]) <= Accumulated(cs)
  {
    if i < |cs| {
      var init := cs[..|cs| - 1];
      assert cs[..i] == init[..i];
      AccumulatedGrows(init, i);
      assert cs[..|cs| - 1] == init;
    } else {
      assert cs[..i] == cs;
    }
  }

  /** `Accumulated` is empty exactly when no chunk has text. */
  lemma {:induction false} AccumulatedEmpty(cs: seq<Chunk>)
    ensures Accumulated(cs) == "" <==> forall j :: 0 <= j < |cs| ==> !HasText(cs[j])
  {
    if cs != [] {
      var init := cs[..|cs| - 1];
      AccumulatedEmpty(init);
      assert forall j :: 0 <= j < |init| ==> init[j] == cs[j];
    }
  }

  /**
   * After the chunks `cs`, every entry named `id` holds the accumulated reply
   * (once any text has arrived), and every other entry is as it was.
   */
  lemma {:induction false} StreamedEntries(start: seq<Message>, id: string, cs: seq<Chunk>)
    ensures |Streamed(start, id, cs)| == |start|
    ensures forall i :: 0 <= i < |start| ==>
      Streamed(start, id, cs)[i] ==
      (if start[i].id == id && Accumulated(cs) != "" then start[i].(text := Accumulated(cs)) else start[i])
  {
    if cs != [] {
      var init := cs[..|cs| - 1];
      StreamedEntries(start, id, init);
      if HasText(cs[|cs| - 1]) {
        SetTextEntries(Streamed(start, id, init), id, Accumulated(cs));
      } else {
        assert Accumulated(cs) == Accumulated(init);
      }
    }
  }

  /**
   * During a turn, after each chunk: the placeholder holds exactly the text
   * accumulated so far and is the only loading entry, whatever the earlier
   * log held (as long as nothing in it was loading).
   */
  lemma StreamedPlaceholder(log: seq<Message>, text: string, userId: string, botId: string, cs: seq<Chunk>)
    requires NoneLoading(log)
    ensures var s := Streamed(StartedLog(log, text, userId, botId), botId, cs);
      |s| == |log| + 2 &&
      s[|log| + 1] == Message(botId, Accumulated(cs), Bot, true) &&
      forall i :: 0 <= i < |s| ==> (s[i].isLoading <==> i == |log| + 1)
  {
    StreamedEntries(StartedLog(log, text, userId, botId), botId, cs);
  }

  /** With fresh ids, the rest of the log is untouched while the reply streams in. */
  lemma StreamedFresh(log: seq<Message>, text: string, userId: string, botId: string, cs: seq<Chunk>)
    requires FreshId(log, botId) && userId != botId
    ensures Streamed(StartedLog(log, text, userId, botId), botId, cs) ==
      log + [UserMessage(userId, text), Message(botId, Accumulated(cs), Bot, true)]
  {
    var start := StartedLog(log, text, userId, botId);
    StreamedEntries(start, botId, cs);
    var s := Streamed(start, botId, cs);
    assert forall i :: 0 <= i < |s| ==> s[i] == (log + [UserMessage(userId, text), Message(botId, Accumulated(cs), Bot, true)])[i];
  }

  /** One more chunk: its fragment is appended, and if it has text the log is republished with it. */
  lemma StreamedSnoc(start: seq<Message>, id: string, cs: seq<Chunk>, c: Chunk)
    ensures Accumulated(cs + [c]) == Accumulated(cs) + Fragment(c)
    ensures Streamed(start, id, cs + [c]) ==
      if HasText(c) then SetText(Streamed(start, id, cs), id, Accumulated(cs) + c.text.value)
      else Streamed(start, id, cs)
  {
    assert (cs + [c])[..|cs|] == cs;
  }

  /**
   * Function calls other than the emergency tool are ignored: the chunk
   * leaves the escalation point where it was (its text still applies, as
   * `StreamedSnoc` states for every chunk).
   */
  lemma OtherCallsIgnored(cs: seq<Chunk>, c: Chunk)
    requires !IsEmergency(c)
    ensures FirstEmergency(cs + [c]) == FirstEmergency(cs)
  {
    var cs' := cs + [c];
    assert forall j :: 0 <= j < |cs| ==> cs'[j] == cs[j];
    var g := FirstEmergency(cs);
    FirstEmergencyIsFirst(cs);
    if g.Some? {
      FirstEmergencyAt(cs', g.value);
    } else {
      assert forall j :: 0 <= j < |cs'| ==> !IsEmergency(cs'[j]);
    }
  }

  /** The first chunk that calls the emergency tool is the one `FirstEmergency` finds. */
  lemma {:induction false} FirstEmergencyAt(cs: seq<Chunk>, k: nat)
    requires k < |cs| && IsEmergency(cs[k])
    requires forall j :: 0 <= j < k ==> !IsEmergency(cs[j])
    ensures FirstEmergency(cs) == Some(k)
  {
    if k > 0 {
      assert !IsEmergency(cs[0]);
      assert forall j :: 0 <= j < k - 1 ==> cs[1..][j] == cs[j + 1];
      FirstEmergencyAt(cs[1..], k - 1);
    }
  }

  // ---------------------------------------------------------------------
  // Properties of a settled turn

  /** Where the controller's emergency branch, taken at chunk `i`, leaves the log. */
  lemma SettledOnEmergency(started: seq<Message>, botId: string, systemId: string, s: Stream, i: nat)
    requires i < |s.chunks| && IsEmergency(s.chunks[i])
    requires forall j :: 0 <= j < i ==> !IsEmergency(s.chunks[j])
    ensures FirstEmergency(s.chunks) == Some(i)
    ensures SettledLog(started, botId, systemId, s) ==
      Without(Streamed(started, botId, s.chunks[..i]), botId) + [SystemMessage(systemId)]
  {
    FirstEmergencyAt(s.chunks, i);
    WithoutStreamed(started, botId, s.chunks[..i]);
  }

  /** Where the controller leaves the log when the stream runs out without an emergency call. */
  lemma SettledOnEnd(started: seq<Message>, botId: string, systemId: string, s: Stream)
    requires forall j :: 0 <= j < |s.chunks| ==> !IsEmergency(s.chunks[j])
    ensures FirstEmergency(s.chunks).None?
    ensures SettledLog(started, botId, systemId, s) ==
      Settle(Streamed(started, botId, s.chunks), botId, if s.fails then SendErrorText else Accumulated(s.chunks))
  {
    SettleStreamed(started, botId, s.chunks, if s.fails then SendErrorText else Accumulated(s.chunks));
  }

  /** Successive republications of the reply text leave nothing once the turn settles. */
  lemma {:induction false} SettleStreamed(start: seq<Message>, id: string, cs: seq<Chunk>, t: string)
    ensures Settle(Streamed(start, id, cs), id, t) == Settle(start, id, t)
  {
    StreamedEntries(start, id, cs);
    SettleEntries(Streamed(start, id, cs), id, t);
    SettleEntries(start, id, t);
    var a, b := Settle(Streamed(start, id, cs), id, t), Settle(start, id, t);
    assert forall i :: 0 <= i < |a| ==> a[i] == b[i];
  }

  /** Dropping the entries named `id` ignores the texts they were given. */
  lemma {:induction false} WithoutSetText(log: seq<Message>, id: string, t: string)
    ensures Without(SetText(log, id, t), id) == Without(log, id)
  {
    if log != [] {
      WithoutSetText(log[1..], id, t);
      assert SetText(log, id, t)[1..] == SetText(log[1..], id, t);
    }
  }

  /** Dropping the placeholder discards whatever text streamed into it. */
  lemma {:induction false} WithoutStreamed(start: seq<Message>, id: string, cs: seq<Chunk>)
    ensures Without(Streamed(start, id, cs), id) == Without(start, id)
  {
    if cs != [] {
      WithoutStreamed(start, id, cs[..|cs| - 1]);
      if HasText(cs[|cs| - 1]) {
        WithoutSetText(Streamed(start, id, cs[..|cs| - 1]), id, Accumulated(cs));
      }
    }
  }

  /** Once a turn settles, no entry is loading, whichever way it ended. */
  lemma SettledNoneLoading(log: seq<Message>, text: string, userId: string, botId: string, systemId: string, s: Stream)
    requires NoneLoading(log)
    ensures NoneLoading(SettledLog(StartedLog(log, text, userId, botId), botId, systemId, s))
  {
    var start := StartedLog(log, text, userId, botId);
    if FirstEmergency(s.chunks).Some? {
      var r := Without(start, botId);
      WithoutMembers(start, botId);
      assert forall i :: 0 <= i < |r| ==> r[i] in start;
    } else {
      SettleEntries(start, botId, if s.fails then SendErrorText else Accumulated(s.chunks));
    }
  }

  /** A stream that ends normally leaves the whole reply, no longer loading, after the user's message. */
  lemma TurnCompletes(log: seq<Message>, text: string, userId: string, botId: string, systemId: string, s: Stream)
    requires FreshId(log, botId) && userId != botId
    requires FirstEmergency(s.chunks).None? && !s.fails
    ensures SettledLog(StartedLog(log, text, userId, botId), botId, systemId, s) ==
      log + [UserMessage(userId, text), Message(botId, Accumulated(s.chunks), Bot, false)]
  {
    SettleEntries(StartedLog(log, text, userId, botId), botId, Accumulated(s.chunks));
    var r := SettledLog(StartedLog(log, text, userId, botId), botId, systemId, s);
    assert forall i :: 0 <= i < |r| ==> r[i] == (log + [UserMessage(userId, text), Message(botId, Accumulated(s.chunks), Bot, false)])[i];
  }

  /** A stream that throws leaves the fixed error text, not the partial reply. */
  lemma TurnFails(log: seq<Message>, text: string, userId: string, botId: string, systemId: string, s: Stream)
    requires FreshId(log, botId) && userId != botId
    requires FirstEmergency(s.chunks).None? && s.fails
    ensures SettledLog(StartedLog(log, text, userId, botId), botId, systemId, s) ==
      log + [UserMessage(userId, text), Message(botId, SendErrorText, Bot, false)]
  {
    SettleEntries(StartedLog(log, text, userId, botId), botId, SendErrorText);
    var r := SettledLog(StartedLog(log, text, userId, botId), botId, systemId, s);
    assert forall i :: 0 <= i < |r| ==> r[i] == (log + [UserMessage(userId, text), Message(botId, SendErrorText, Bot, false)])[i];
  }

  /** The emergency path drops the placeholder, with any text in it, for the one system message. */
  lemma TurnEmergency(log: seq<Message>, text: string, userId: string, botId: string, systemId: string, s: Stream)
    requires FreshId(log, botId) && userId != botId
    requires FirstEmergency(s.chunks).Some?
    ensures SettledLog(StartedLog(log, text, userId, botId), botId, systemId, s) ==
      log + [UserMessage(userId, text), SystemMessage(systemId)]
  {
    var u, p := UserMessage(userId, text), Placeholder(botId);
    assert [u][1..] == [] && [p][1..] == [];
    calc {
      Without(StartedLog(log, text, userId, botId), botId);
      { assert StartedLog(log, text, userId, botId) == log + [u, p] == (log + [u]) + [p]; }
      Without((log + [u]) + [p], botId);
      { WithoutAppend(log + [u], [p], botId); }
      Without(log + [u], botId) + Without([p], botId);
      { WithoutAppend(log, [u], botId); }
      Without(log, botId) + Without([u], botId) + Without([p], botId);
      { WithoutFresh(log, botId); }
      log + [u];
    }
  }

  /** `Without` distributes over concatenation. */
  lemma {:induction false} WithoutAppend(a: seq<Message>, b: seq<Message>, id: string)
    ensures Without(a + b, id) == Without(a, id) + Without(b, id)
  {
    if a == [] {
      assert a + b == b;
    } else {
      var h := if a[0].id == id then [] else [a[0]];
      calc {
        Without(a + b, id);
        { assert (a + b)[0] == a[0] && (a + b)[1..] == a[1..] + b; }
        h + Without(a[1..] + b, id);
        { WithoutAppend(a[1..], b, id); }
        h + (Without(a[1..], id) + Without(b, id));
        (h + Without(a[1..], id)) + Without(b, id);
      }
    }
  }

  /** No chunk after the first emergency call matters, nor whether the stream would have thrown. */
  lemma EmergencyCutsStream(started: seq<Message>, botId: string, systemId: string, s: Stream, k: nat, rest: seq<Chunk>, fails: bool)
    requires FirstEmergency(s.chunks) == Some(k)
    ensures FirstEmergency(s.chunks[..k + 1] + rest) == Some(k)
    ensures SettledLog(started, botId, systemId, s) == SettledLog(started, botId, systemId, Stream(s.chunks[..k + 1] + rest, fails))
  {
    var cs := s.chunks[..k + 1] + rest;
    assert forall j :: 0 <= j <= k ==> cs[j] == s.chunks[j];
    FirstEmergencyIsFirst(s.chunks);
    FirstEmergencyAt(cs, k);
  }

  /** The inner `for ... of chunk.functionCalls` scan for the emergency tool. */
  method CallsEmergency(calls: seq<string>) returns (found: bool)
    ensures found <==> EmergencyTool in calls
  {
    var k := 0;
    while k < |calls|
      invariant 0 <= k <= |calls|
      invariant forall j :: 0 <= j < k ==> calls[j] != EmergencyTool
    {
      if calls[k] == EmergencyTool {
        return true;
      }
      k := k + 1;
    }
    return false;
  }

  // ---------------------------------------------------------------------
  // The application state

  class AppState {
    var messages: seq<Message>
    var isLoading: bool
    /** The error banner. */
    var error: Option<string>
    /** `chatInstanceRef.current`. */
    var session: Option<Session>
    var currentUser: Option<string>
    /** The stored `pocketTherapistUser` key. */
    var storedUser: Option<string>
    var view: View
    /** The numbers the browser was sent to dial (`window.location.href`), in order. */
    var dialled: seq<string>

    /** Outside a turn, nothing in the log is loading. */
    ghost predicate Valid()
      reads this
    {
      !isLoading ==> NoneLoading(messages)
    }

    /**
     * Mounting the application: the greeting alone in the log, the stored
     * user (if any) logged in, and the session created or the start-up error
     * shown.
     */
    constructor (stored: Option<string>, created: SessionResult)
      ensures Valid()
      ensures messages == [InitialMessage] && !isLoading && view == ChatView && dialled == []
      ensures storedUser == stored
      ensures currentUser == if stored.Some? && stored.value != "" then stored else None
      ensures session == if created.Created? then Some(created.session) else None
      ensures error == match created
        case Created(_) => None
        case Unavailable => Some(MissingKeyText)
        case Threw => Some(InitErrorText)
    {
      messages := [InitialMessage];
      isLoading := false;
      error := None;
      view := ChatView;
      dialled := [];
      storedUser := stored;
      currentUser := if stored.Some? && stored.value != "" then stored else None;
      match created {
        case Created(s) =>
          session := Some(s);
        case Unavailable =>
          session := None;
          error := Some(MissingKeyText);
        case Threw =>
          session := None;
          error := Some(InitErrorText);
      }
    }

    /**
     * `handleLogin`: remember the user, reset the log to the greeting, show
     * the chat. `writeFails` says whether storing the user throws; that
     * happens first, so then nothing changes and the exception (`threw`)
     * goes back to the login form.
     */
    method Login(email: string, writeFails: bool) returns (threw: bool)
      requires Valid()
      modifies this
      ensures Valid() && threw == writeFails
      ensures writeFails ==> && messages == old(messages) && storedUser == old(storedUser)
                             && currentUser == old(currentUser) && view == old(view)
      ensures !writeFails ==> && messages == [InitialMessage] && NoneLoading(messages)
                              && storedUser == Some(email) && currentUser == Some(email) && view == ChatView
      ensures isLoading == old(isLoading) && error == old(error) && session == old(session) && dialled == old(dialled)
    {
      if writeFails {
        return true;
      }
      storedUser := Some(email);
      currentUser := Some(email);
      messages := [InitialMessage];
      view := ChatView;
      threw := false;
    }

    /** `handleLogout`: forget the user; the log stays as it is until the next login. */
    method Logout()
      requires Valid()
      modifies this
      ensures Valid()
      ensures storedUser == None && currentUser == None
      ensures messages == old(messages) && isLoading == old(isLoading) && error == old(error)
      ensures session == old(session) && view == old(view) && dialled == old(dialled)
    {
      storedUser := None;
      currentUser := None;
    }

    /** A navigation button. */
    method SetView(v: View)
      requires Valid()
      modifies this
      ensures Valid() && view == v
      ensures messages == old(messages) && isLoading == old(isLoading) && error == old(error)
      ensures session == old(session) && currentUser == old(currentUser) && storedUser == old(storedUser)
      ensures dialled == old(dialled)
    {
      view := v;
    }

    /**
     * `handleSendMessage`: one turn, with `stream` the reply the session
     * produces and `userId`, `botId`, `systemId` the ids the clock gives the
     * three messages it may create.
     */
    method SendMessage(text: string, userId: string, botId: string, systemId: string, stream: Stream)
      requires Valid()
      modifies this`messages, this`isLoading, this`error, this`dialled
      ensures Valid()
      ensures Blocked(old(isLoading), text, old(session)) ==>
        && messages == old(messages) && isLoading == old(isLoading) && dialled == old(dialled)
        && error == if old(session).None? && old(error).None? then Some(UnavailableText) else old(error)
      ensures !Blocked(old(isLoading), text, old(session)) ==>
        && messages == SettledLog(StartedLog(old(messages), text, userId, botId), botId, systemId, stream)
        && !isLoading
        && dialled == old(dialled) + (if FirstEmergency(stream.chunks).Some? then [DialTarget] else [])
        && error == if FirstEmergency(stream.chunks).None? && stream.fails then Some(SendErrorText) else None
    {
      if isLoading || Trim(text) == "" || session.None? {
        if session.None? && error.None? {
          error := Some(UnavailableText);
        }
        return;
      }
      ghost var log := messages;
      Start(text, userId, botId);
      error := None;
      Consume(botId, systemId, stream);
      SettledNoneLoading(log, text, userId, botId, systemId, stream);
    }

    /** The opening of a turn: the user's message, the loading flag, the placeholder. */
    method Start(text: string, userId: string, botId: string)
      modifies this`messages, this`isLoading
      ensures messages == StartedLog(old(messages), text, userId, botId) && isLoading
    {
      messages := messages + [UserMessage(userId, text)];
      isLoading := true;
      messages := messages + [Placeholder(botId)];
    }

    /**
     * The emergency path: the placeholder `botId` is replaced by the system
     * message, the browser is sent to `DialTarget` once, and the turn ends.
     */
    method Escalate(botId: string, systemId: string)
      modifies this`messages, this`isLoading, this`error, this`dialled
      ensures messages == Without(old(messages), botId) + [SystemMessage(systemId)]
      ensures dialled == old(dialled) + [DialTarget] && !isLoading && error == old(error)
    {
      messages := Without(messages, botId) + [SystemMessage(systemId)];
      dialled := dialled + [DialTarget];
      isLoading := false;
    }

    /**
     * The `for await` loop of `handleSendMessage`: publish the text read so
     * far into the placeholder `botId` after every chunk that carries text,
     * and stop at the first chunk that calls the emergency tool. `stop` is
     * the index of that chunk, if any; `fullResponse` is the text read
     * before it.
     */
    method ReadStream(botId: string, stream: Stream) returns (fullResponse: string, stop: Option<nat>)
      modifies this`messages
      ensures stop == FirstEmergency(stream.chunks)
      ensures var n := if stop.Some? then stop.value else |stream.chunks|;
        && fullResponse == Accumulated(stream.chunks[..n])
        && messages == Streamed(old(messages), botId, stream.chunks[..n])
    {
      ghost var started := messages;
      fullResponse := "";
      stop := None;
      var i := 0;
      assert stream.chunks[..0] == [];
      while i < |stream.chunks|
        invariant 0 <= i <= |stream.chunks|
        invariant forall j :: 0 <= j < i ==> !IsEmergency(stream.chunks[j])
        invariant fullResponse == Accumulated(stream.chunks[..i])
        invariant messages == Streamed(started, botId, stream.chunks[..i])
      {
        var chunk := stream.chunks[i];
        var emergency := false;
        if chunk.functionCalls.Some? {
          emergency := CallsEmergency(chunk.functionCalls.value);
        }
        if emergency {
          assert FirstEmergency(stream.chunks) == Some(i) by {
            FirstEmergencyAt(stream.chunks, i);
          }
          stop := Some(i);
          return;
        }
        assert Accumulated(stream.chunks[..i + 1]) == fullResponse + Fragment(chunk) &&
          Streamed(started, botId, stream.chunks[..i + 1]) ==
          if HasText(chunk) then SetText(messages, botId, fullResponse + chunk.text.value) else messages
        by {
          assert stream.chunks[..i + 1] == stream.chunks[..i] + [chunk];
          StreamedSnoc(started, botId, stream.chunks[..i], chunk);
        }
        if HasText(chunk) {
          fullResponse := fullResponse + chunk.text.value;
          messages := SetText(messages, botId, fullResponse);
        }
        i := i + 1;
      }
      assert stream.chunks[..i] == stream.chunks;
    }

    /**
     * The `try`/`catch`/`finally` of `handleSendMessage`: read the stream
     * into the placeholder `botId`, then settle the turn.
     */
    method Consume(botId: string, systemId: string, stream: Stream)
      requires isLoading && error == None
      modifies this`messages, this`isLoading, this`error, this`dialled
      ensures messages == SettledLog(old(messages), botId, systemId, stream)
      ensures !isLoading
      ensures dialled == old(dialled) + (if FirstEmergency(stream.chunks).Some? then [DialTarget] else [])
      ensures error == if FirstEmergency(stream.chunks).None? && stream.fails then Some(SendErrorText) else None
    {
      ghost var started := messages;
      var fullResponse, stop := ReadStream(botId, stream);
      if stop.Some? {
        assert Without(messages, botId) == Without(started, botId) by {
          WithoutStreamed(started, botId, stream.chunks[..stop.value]);
        }
        Escalate(botId, systemId);
        return;
      }
      assert stream.chunks[..|stream.chunks|] == stream.chunks;
      var reply := if stream.fails then SendErrorText else fullResponse;
      assert Settle(messages, botId, reply) == Settle(started, botId, reply) by {
        SettleStreamed(started, botId, stream.chunks, reply);
      }
      if stream.fails {
        error := Some(SendErrorText);
      }
      messages := Settle(messages, botId, reply);
      isLoading := false;
    }
  }
}
