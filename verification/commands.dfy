/**
 * What `execute_command` does with one command (voice_assistant.py:268-317), and
 * what the main loop does with a whole session (voice_assistant.py:320-326), as
 * functions of the services' answers and of the user's input. The class in
 * assistant.dfy is proved to change its state exactly as these functions say.
 */
module Commands {
  import opened Wrappers
  import opened Text
  import opened Speech
  import opened Routing
  import opened Sites
  import opened Mail
  import opened Replies

  /**
   * The outside world as one session sees it: the clock and the calendar as
   * formatted text, the joke the joke library hands out, the configured sender
   * address, and the answers of the encyclopedia, the weather service, the
   * computation engine and the SMTP server.
   */
  datatype Services = Services(
    clock: string,
    today: string,
    joke: string,
    sender: string,
    wiki: string -> WikiResult,
    weather: string -> WeatherResult,
    compute: string -> ComputeResult,
    transport: Letter -> Transport)

  /** The exceptions `execute_command` lets escape, which end the program. */
  datatype Uncaught =
    | NoSiteName   // IndexError from the site-name lookup of the "open" command
    | EndOfInput   // EOFError from `take_command` once the keyboard has run out

  /** How `execute_command` ends: returns true, returns false, or raises. */
  datatype Next = Continue | Halt | Raised(error: Uncaught)

  /**
   * Everything one command does: what is spoken, the URLs handed to the browser,
   * the letters for which an SMTP session was started (those whose address passed
   * validation), the letters the server accepted, the input left over, and how
   * the command ends.
   */
  datatype Effect = Effect(
    said: seq<string>,
    browsed: seq<string>,
    attempted: seq<Letter>,
    sent: seq<Letter>,
    rest: Input,
    next: Next)

  const WhichCity := "Which city?"
  const Goodbye := "Goodbye! Have a great day."
  const NotRecognized := "Command not recognized"
  const NotConfigured := "Website not configured"

  function OpeningMessage(name: string): string {
    "Opening " + name
  }

  /** An effect that only speaks. */
  function Says(said: seq<string>, inp: Input): Effect {
    Effect(said, [], [], [], inp, Continue)
  }

  /** `open_website(name)`. */
  function Visit(name: string, inp: Input): (e: Effect)
    ensures e.next == Continue && e.rest == inp && e.attempted == [] && e.sent == [] && |e.said| == 1
    ensures name in KnownSites ==> e.browsed == [KnownSites[name]]
    ensures name !in KnownSites ==> e.browsed == []
    ensures e.said == [if name in KnownSites then OpeningMessage(name) else NotConfigured]
  {
    if name in KnownSites then Effect([OpeningMessage(name)], [KnownSites[name]], [], [], inp, Continue)
    else Says([NotConfigured], inp)
  }

  /**
   * The "open" branch of `execute_command` on the lower-cased command `q`: the
   * word after "open " is looked up, and its absence raises `IndexError`.
   */
  function OpenDialogue(q: string, inp: Input): (e: Effect)
    ensures e.next == Raised(NoSiteName) <==> SiteName(q).None?
    ensures e.rest == inp && e.attempted == [] && e.sent == []
  {
    match SiteName(q)
    case None => Effect([], [], [], [], inp, Raised(NoSiteName))
    case Some(name) => Visit(name, inp)
  }

  /**
   * `send_email(to, subject, content)` from `sender`: the letter reaches the
   * transport only when the address is valid, and counts as sent only when the
   * whole SMTP session succeeds.
   */
  function Mailing(svc: Services, to: string, subject: string, content: string, inp: Input): (e: Effect)
    ensures e.next == Continue && e.rest == inp && e.browsed == []
    ensures var letter := Letter(svc.sender, to, subject, content);
      && (e.attempted == [] <==> !ValidateEmail(to))
      && (e.attempted != [] ==> e.attempted == [letter])
      && (e.sent != [] <==> ValidateEmail(to) && svc.transport(letter) == Transport(Done, LoggedIn, Done))
      && (e.sent == [] || e.sent == e.attempted)
      && e.said == [SendOutcome(to, svc.transport(letter)).message]
  {
    var letter := Letter(svc.sender, to, subject, content);
    var o := SendOutcome(to, svc.transport(letter));
    Effect([o.message], [], if ValidateEmail(to) then [letter] else [], if o.ok then [letter] else [], inp, Continue)
  }

  /**
   * The weather branch of `execute_command`: ask for the city, take one command as
   * the answer, and look the weather up unless the answer is empty.
   */
  function WeatherDialogue(svc: Services, inp: Input): (e: Effect)
    ensures Size(e.rest) <= Size(inp)
    ensures e.next == if Listen(inp).command.None? then Raised(EndOfInput) else Continue
    ensures e.browsed == [] && e.attempted == [] && e.sent == []
  {
    var t := Listen(inp);
    match t.command
    case None => Effect([WhichCity] + t.said, [], [], [], t.rest, Raised(EndOfInput))
    case Some(city) =>
      Says([WhichCity] + t.said + (if city == [] then [] else [WeatherReply(city, svc.weather(city))]), t.rest)
  }

  /**
   * The email branch of `execute_command`: fill the three slots, then send; an
   * answer that raises cancels the email.
   */
  function EmailDialogue(svc: Services, inp: Input): (e: Effect)
    ensures Size(e.rest) <= Size(inp)
    ensures e.next == Continue
  {
    var f := FillSlots(inp);
    match f.answers
    case Some(Answers(to, subject, content)) =>
      var m := Mailing(svc, to, subject, content, f.rest);
      m.(said := f.said + m.said)
    case None => Says(f.said + [CancelledMessage], f.rest)
  }

  /** The intents whose branch neither opens a site nor asks a further question. */
  predicate Direct(i: Intent) {
    i != OpenSite && i != Weather && i != Email
  }

  /**
   * The branches of `execute_command` for the direct intents: a fixed reply or an
   * answer from a service, nothing read and nothing sent; only exit returns false.
   */
  function DirectReply(svc: Services, query: string, inp: Input): (e: Effect)
    requires Direct(Classify(query))
    ensures e.rest == inp && e.browsed == [] && e.attempted == [] && e.sent == []
    ensures e.next == (if Classify(query) == Exit then Halt else Continue)
    ensures Classify(query) == NoOp ==> e.said == []
    ensures Classify(query) == Time ==> e.said == [TimeReply(svc.clock)]
    ensures Classify(query) == Date ==> e.said == [DateReply(svc.today)]
    ensures Classify(query) == Wikipedia ==>
              e.said == [SearchingWikipedia, WikiReply(svc.wiki(WikiTopic(Lower(query))))]
    ensures Classify(query) == Joke ==> e.said == [svc.joke]
    ensures Classify(query) == Compute ==> e.said == [ComputeReply(svc.compute(Lower(query)))]
    ensures Classify(query) == Exit ==> e.said == [Goodbye]
    ensures Classify(query) == Intent.Unrecognized ==> e.said == [NotRecognized]
  {
    var q := Lower(query);
    match Classify(query)
    case NoOp => Says([], inp)
    case Time => Says([TimeReply(svc.clock)], inp)
    case Date => Says([DateReply(svc.today)], inp)
    case Wikipedia => Says([SearchingWikipedia, WikiReply(svc.wiki(WikiTopic(q)))], inp)
    case Joke => Says([svc.joke], inp)
    case Compute => Says([ComputeReply(svc.compute(q))], inp)
    case Exit => Effect([Goodbye], [], [], [], inp, Halt)
    case Unrecognized => Says([NotRecognized], inp)
  }

  /** `execute_command(query)` with the services `svc` and the input `inp`. */
  function Dispatch(svc: Services, query: string, inp: Input): (e: Effect)
    ensures Size(e.rest) <= Size(inp)
  {
    match Classify(query)
    case OpenSite => OpenDialogue(Lower(query), inp)
    case Weather => WeatherDialogue(svc, inp)
    case Email => EmailDialogue(svc, inp)
    case _ => DirectReply(svc, query, inp)
  }

  // ---------------------------------------------------------------- one command

  /**
   * How a command ends: it returns false exactly for the exit intent, it raises
   * `IndexError` exactly for an "open" command without a word after "open ", and
   * it raises `EOFError` exactly when the city question finds the keyboard empty.
   */
  lemma DispatchEnds(svc: Services, query: string, inp: Input)
    ensures var e := Dispatch(svc, query, inp);
      && (e.next == Halt <==> Classify(query) == Exit)
      && (e.next == Halt <==> !KeepsRunning(query))
      && (e.next == Raised(NoSiteName) <==> Classify(query) == OpenSite && SiteName(Lower(query)).None?)
      && (e.next == Raised(EndOfInput) <==> Classify(query) == Weather && Listen(inp).command.None?)
  {
  }

  /**
   * What a command leaves behind when it ends the loop: the exit says goodbye and
   * reads nothing more, and `EOFError` comes only once the keyboard has run out.
   */
  lemma FinalEffects(svc: Services, query: string, inp: Input)
    ensures var e := Dispatch(svc, query, inp);
      && (e.next == Raised(EndOfInput) ==> e.rest.typed == [])
      && (e.next == Halt ==> e.said == [Goodbye] && e.rest == inp)
  {
    ListenSpec(inp);
  }

  /**
   * A command is silent only when it is empty or when the site-name lookup raises;
   * every other command speaks at least once.
   */
  lemma SilentOnlyWhenEmpty(svc: Services, query: string, inp: Input)
    ensures Dispatch(svc, query, inp).said == [] <==>
              query == [] || (Classify(query) == OpenSite && SiteName(Lower(query)).None?)
  {
    OnlyEmptyIsNoOp(query);
  }

  /** A command of blanks is answered "Command not recognized" and nothing else happens. */
  lemma BlankGetsNotRecognized(svc: Services, query: string, inp: Input)
    requires query != [] && AllSpace(query)
    ensures Dispatch(svc, query, inp) == Says([NotRecognized], inp)
  {
    BlankIsUnrecognized(query);
  }

  /** Only "open" drives the browser, with at most one URL, and only a configured one. */
  lemma OnlyOpenBrowses(svc: Services, query: string, inp: Input)
    ensures var e := Dispatch(svc, query, inp);
      && (e.browsed != [] ==> Classify(query) == OpenSite)
      && |e.browsed| <= 1
      && (forall url :: url in e.browsed ==> url in KnownSites.Values)
  {
    if Classify(query) == OpenSite && SiteName(Lower(query)).Some? {
      var name := SiteName(Lower(query)).value;
      if name in KnownSites {
        assert KnownSites[name] in KnownSites.Values;
      }
    }
  }

  /**
   * Only "email" starts an SMTP session, and it starts at most one, for a letter
   * from the configured sender to an address that passed validation; a letter
   * counts as sent only if a session was started for it.
   */
  lemma OnlyEmailMails(svc: Services, query: string, inp: Input)
    ensures var e := Dispatch(svc, query, inp);
      && (e.attempted != [] ==> Classify(query) == Email)
      && |e.attempted| <= 1
      && (forall l :: l in e.attempted ==> l.sender == svc.sender && ValidateEmail(l.receiver))
      && (e.sent == [] || e.sent == e.attempted)
  {
    if Classify(query) == Email {
      EmailDialogueMails(svc, inp);
    }
  }

  /**
   * The email dialogue starts at most one SMTP session, for a letter from the
   * configured sender to an address that passed validation, and the letter counts
   * as sent only if its session was started.
   */
  lemma EmailDialogueMails(svc: Services, inp: Input)
    ensures var e := EmailDialogue(svc, inp);
      && |e.attempted| <= 1
      && (forall l :: l in e.attempted ==> l.sender == svc.sender && ValidateEmail(l.receiver))
      && (e.sent == [] || e.sent == e.attempted)
  {
    var f := FillSlots(inp);
    if f.answers.Some? {
      var a := f.answers.value;
      var m := Mailing(svc, a.receiver, a.subject, a.content, f.rest);
      assert EmailDialogue(svc, inp).attempted == m.attempted;
      assert EmailDialogue(svc, inp).sent == m.sent;
    }
  }

  /** Only the weather and the email commands read further input; every other command leaves it alone. */
  lemma OnlyDialoguesReadInput(svc: Services, query: string, inp: Input)
    requires Classify(query) != Weather && Classify(query) != Email
    ensures Dispatch(svc, query, inp).rest == inp
  {
  }

  /** "open <site>": the browser gets the site's URL exactly when the site is configured. */
  lemma OpenSiteEffect(svc: Services, query: string, inp: Input)
    requires Classify(query) == OpenSite && SiteName(Lower(query)).Some?
    ensures var name := SiteName(Lower(query)).value; var e := Dispatch(svc, query, inp);
      && e.next == Continue
      && (name in KnownSites ==> e.browsed == [KnownSites[name]] && e.said == [OpeningMessage(name)])
      && (name !in KnownSites ==> e.browsed == [] && e.said == [NotConfigured])
  {
  }

  /**
   * The weather command asks for the city, and fetches the weather only for a
   * non-empty answer.
   */
  lemma WeatherAsksForCity(svc: Services, query: string, inp: Input)
    requires Classify(query) == Weather && Listen(inp).command.Some?
    ensures var t := Listen(inp); var city := t.command.value; var e := Dispatch(svc, query, inp);
      && e.next == Continue && e.rest == t.rest
      && e.said[..1 + |t.said|] == [WhichCity] + t.said
      && (city == [] ==> e.said == [WhichCity] + t.said)
      && (city != [] ==> e.said == [WhichCity] + t.said + [WeatherReply(city, svc.weather(city))])
  {
  }

  /**
   * Asked by voice, the three email answers become the letter's recipient, subject
   * and body; when the address is valid and the SMTP session succeeds, the letter
   * is sent and the success message is the last thing said.
   */
  lemma EmailBySpeech(svc: Services, query: string, a: string, b: string, c: string, more: seq<Capture>, typed: seq<string>)
    requires Classify(query) == Email
    requires ValidateEmail(Lower(a))
    requires svc.transport(Letter(svc.sender, Lower(a), Lower(b), Lower(c))) == Transport(Done, LoggedIn, Done)
    ensures var e := Dispatch(svc, query, Input([Recognized(a), Recognized(b), Recognized(c)] + more, typed));
      && e.said == [RecipientPrompt, SubjectPrompt, ContentPrompt, SentMessage(Lower(a))]
      && e.sent == [Letter(svc.sender, Lower(a), Lower(b), Lower(c))]
      && e.rest == Input(more, typed)
      && e.next == Continue
  {
    EmailDialogueBySpeech(svc, a, b, c, more, typed);
  }

  /** `EmailBySpeech` for the email dialogue itself. */
  lemma EmailDialogueBySpeech(svc: Services, a: string, b: string, c: string, more: seq<Capture>, typed: seq<string>)
    requires ValidateEmail(Lower(a))
    requires svc.transport(Letter(svc.sender, Lower(a), Lower(b), Lower(c))) == Transport(Done, LoggedIn, Done)
    ensures var e := EmailDialogue(svc, Input([Recognized(a), Recognized(b), Recognized(c)] + more, typed));
      && e.said == [RecipientPrompt, SubjectPrompt, ContentPrompt, SentMessage(Lower(a))]
      && e.sent == [Letter(svc.sender, Lower(a), Lower(b), Lower(c))]
      && e.rest == Input(more, typed)
  {
    SlotsFromSpeech(a, b, c, more, typed);
  }

  /**
   * The email command never raises: when an answer raises, it says "Email
   * cancelled" and goes on, and that only happens once the keyboard has run out.
   */
  lemma EmailNeverRaises(svc: Services, query: string, inp: Input)
    requires Classify(query) == Email
    ensures var e := Dispatch(svc, query, inp); var f := FillSlots(inp);
      && e.next == Continue
      && e.said[..|f.said|] == f.said
      && |e.said| == |f.said| + 1
      && (f.answers.None? ==> e.said[|f.said|] == CancelledMessage && e.attempted == [] && e.rest.typed == [])
      && (f.answers.Some? && !ValidateEmail(f.answers.value.receiver) ==>
            e.said[|f.said|] == InvalidFormatMessage && e.attempted == [] && e.sent == [])
  {
    SlotFillingOutcome(inp);
  }

  // ---------------------------------------------------------------- the main loop

  /** How the program ends: the user said goodbye, or an exception escaped the loop. */
  datatype SessionEnd = UserExit | Crashed(error: Uncaught)

  /**
   * Everything a session does after the greeting: what is spoken, browsed,
   * attempted and sent, the commands handed to `execute_command` in order, how it
   * ends and the input left over.
   */
  datatype Trace = Trace(
    said: seq<string>,
    browsed: seq<string>,
    attempted: seq<Letter>,
    sent: seq<Letter>,
    handled: seq<string>,
    end: SessionEnd,
    rest: Input)

  /** `a` followed by `b`. */
  function Then(a: Trace, b: Trace): Trace {
    Trace(a.said + b.said, a.browsed + b.browsed, a.attempted + b.attempted, a.sent + b.sent,
          a.handled + b.handled, b.end, b.rest)
  }

  /** One pass of the loop for a command taken with `heard` spoken, ending as the command ends. */
  function Pass(heard: seq<string>, command: string, e: Effect): Trace {
    Trace(heard + e.said, e.browsed, e.attempted, e.sent, [command],
          match e.next case Raised(err) => Crashed(err) case _ => UserExit, e.rest)
  }

  /** One pass of the main loop: what it records, and whether the loop goes on after it. */
  datatype Round = Round(trace: Trace, more: bool)

  /**
   * One pass of the main loop on the input `inp`: take a command and execute it.
   * The loop goes on only after a command that returned true, and then the pass
   * has consumed input.
   */
  function Cycle(svc: Services, inp: Input): (r: Round)
    ensures Size(r.trace.rest) <= Size(inp)
    ensures r.more ==> Size(r.trace.rest) < Size(inp)
  {
    var h := Listen(inp);
    match h.command
    case None => Round(Trace(h.said, [], [], [], [], Crashed(EndOfInput), h.rest), false)
    case Some(command) =>
      var e := Dispatch(svc, command, h.rest);
      Round(Pass(h.said, command, e), e.next == Continue)
  }

  /**
   * The main loop: take a command, execute it, and go on while it returns true.
   * The input shrinks with every command, so every session ends.
   */
  function Session(svc: Services, inp: Input): (t: Trace)
    ensures Size(t.rest) <= Size(inp)
    decreases Size(inp)
  {
    var r := Cycle(svc, inp);
    if r.more then Then(r.trace, Session(svc, r.trace.rest)) else r.trace
  }

  /** An "open" command without a word after "open ": its site-name lookup raises. */
  predicate NamesNoSite(command: string) {
    Classify(command) == OpenSite && SiteName(Lower(command)).None?
  }

  /** A command that ends the loop whatever the input: an exit, or an "open" that raises. */
  predicate Stops(command: string) {
    Classify(command) == Exit || NamesNoSite(command)
  }

  /** Every handled command is lower-case, and none but the last is one that stops the loop. */
  predicate StopsOnlyLast(handled: seq<string>) {
    && (forall i :: 0 <= i < |handled| ==> NoUpper(handled[i]))
    && (forall i :: 0 <= i < |handled| - 1 ==> !Stops(handled[i]))
  }

  /**
   * The session handles commands until the first one that exits or raises: every
   * handled command is lower-case and none before the last is an exit or an "open"
   * without a site name. The session ends by the user's choice exactly when the
   * last command is an exit, and then says goodbye last; it ends with `IndexError`
   * exactly when the last command is an "open" without a site name; it crashes at
   * end of input only once the keyboard has run out.
   */
  predicate WellEnded(t: Trace) {
    && StopsOnlyLast(t.handled)
    && (t.handled == [] ==> t.end == Crashed(EndOfInput))
    && (t.end == UserExit <==> t.handled != [] && Classify(t.handled[|t.handled| - 1]) == Exit)
    && (t.end == Crashed(NoSiteName) <==> t.handled != [] && NamesNoSite(t.handled[|t.handled| - 1]))
    && (t.end == UserExit ==> t.said != [] && t.said[|t.said| - 1] == Goodbye)
    && (t.end == Crashed(EndOfInput) ==> t.rest.typed == [])
  }

  /** Every session stops at its first exit or its first uncaught exception. */
  lemma {:induction false} SessionStopsAtFirstExit(svc: Services, inp: Input)
    ensures WellEnded(Session(svc, inp))
    decreases Size(inp)
  {
    var h := Listen(inp);
    ListenSpec(inp);
    if h.command.Some? {
      var command := h.command.value;
      var e := Dispatch(svc, command, h.rest);
      DispatchEnds(svc, command, h.rest);
      FinalEffects(svc, command, h.rest);
      if e.next == Continue {
        SessionStopsAtFirstExit(svc, e.rest);
        ContinuedWellEnded(Pass(h.said, command, e), Session(svc, e.rest));
      } else {
        LastPassWellEnded(h.said, command, e);
      }
    }
  }

  /** A pass that ends the loop gives a well-ended session. */
  lemma LastPassWellEnded(heard: seq<string>, command: string, e: Effect)
    requires NoUpper(command) && e.next != Continue
    requires e.next == Halt <==> Classify(command) == Exit
    requires e.next == Raised(NoSiteName) <==> NamesNoSite(command)
    requires e.next == Halt ==> e.said == [Goodbye]
    requires e.next == Raised(EndOfInput) ==> e.rest.typed == []
    ensures WellEnded(Pass(heard, command, e))
  {
    var t := Pass(heard, command, e);
    if e.next == Halt {
      assert t.said[|t.said| - 1] == Goodbye;
    }
  }

  /** A pass that does not stop the loop, followed by a well-ended session, is a well-ended session. */
  lemma ContinuedWellEnded(now: Trace, later: Trace)
    requires |now.handled| == 1 && NoUpper(now.handled[0]) && !Stops(now.handled[0])
    requires WellEnded(later)
    ensures WellEnded(Then(now, later))
  {
    var t := Then(now, later);
    assert now.handled == [now.handled[0]];
    Prepended(now.handled[0], later.handled);
    if later.end == UserExit {
      LastOfJoin(now.said, later.said);
    }
  }

  /** The last element of a concatenation with a non-empty right part is the right part's last. */
  lemma LastOfJoin<T>(a: seq<T>, b: seq<T>)
    requires b != []
    ensures (a + b)[|a + b| - 1] == b[|b| - 1]
  {
  }

  /**
   * A lower-case command that does not stop the loop, put before lower-case
   * commands of which only the last may stop it, keeps both properties and the
   * last command.
   */
  lemma Prepended(c: string, later: seq<string>)
    requires NoUpper(c) && !Stops(c) && StopsOnlyLast(later)
    ensures StopsOnlyLast([c] + later)
    ensures ([c] + later)[|later|] == if later == [] then c else later[|later| - 1]
  {
    var all := [c] + later;
    forall i | 0 <= i < |all|
      ensures NoUpper(all[i]) && (i < |all| - 1 ==> !Stops(all[i]))
    {
      if i > 0 {
        assert all[i] == later[i - 1];
      }
    }
  }
}
