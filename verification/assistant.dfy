/**
 * The assistant as a program with state (voice_assistant.py:36-326): what it has
 * spoken, the URLs it handed to the browser, the letters it handed to the SMTP
 * server and those the server accepted, and the input the user has yet to give.
 * Each handler changes that state exactly as the functions of the Commands module
 * say, and the main loop exactly as `Session` says.
 */
module Assistant {
  import opened Wrappers
  import opened Text
  import opened Speech
  import opened Routing
  import opened Sites
  import opened Mail
  import opened Replies
  import opened Commands

  /** The assistant's state as a value. */
  datatype Snapshot = Snapshot(
    spoken: seq<string>,
    browsed: seq<string>,
    attempted: seq<Letter>,
    sent: seq<Letter>,
    input: Input)

  /** The state after a command with effect `e`. */
  function After(w: Snapshot, e: Effect): Snapshot {
    Snapshot(w.spoken + e.said, w.browsed + e.browsed, w.attempted + e.attempted, w.sent + e.sent, e.rest)
  }

  /** The state after a stretch of session `t`. */
  function Record(w: Snapshot, t: Trace): Snapshot {
    Snapshot(w.spoken + t.said, w.browsed + t.browsed, w.attempted + t.attempted, w.sent + t.sent, t.rest)
  }

  class VoiceAssistant {
    /** The answers the outside world gives during this session. */
    const services: Services
    /** Everything passed to the speech engine, in order. */
    var spoken: seq<string>
    /** Every URL handed to the browser, in order. */
    var browsed: seq<string>
    /** Every letter for which an SMTP session was started (its address passed validation), in order. */
    var attempted: seq<Letter>
    /** Every letter the SMTP server accepted, in order. */
    var sent: seq<Letter>
    /** What the microphone and the keyboard have yet to deliver. */
    var input: Input

    constructor (services: Services, input: Input)
      ensures this.services == services && this.input == input
      ensures spoken == [] && browsed == [] && attempted == [] && sent == []
    {
      this.services := services;
      this.input := input;
      spoken, browsed, attempted, sent := [], [], [], [];
    }

    function Current(): Snapshot
      reads this
    {
      Snapshot(spoken, browsed, attempted, sent, input)
    }

    /** `speak(text)`. */
    method Speak(text: string)
      modifies this`spoken
      ensures spoken == old(spoken) + [text]
    {
      spoken := spoken + [text];
    }

    /** `take_command()`: listen once, fall back to one typed line; `None` for `EOFError`. */
    method TakeCommand() returns (command: Option<string>)
      modifies this`spoken, this`input
      ensures var t := Listen(old(input));
        command == t.command && spoken == old(spoken) + t.said && input == t.rest
    {
      var capture := Timeout;
      if input.captures != [] {
        capture := input.captures[0];
        input := input.(captures := input.captures[1..]);
      }
      if capture.Recognized? {
        command := Some(Lower(capture.transcript));
      } else {
        Speak(Apology(capture));
        if input.typed == [] {
          command := None;
        } else {
          command := Some(Lower(input.typed[0]));
          input := input.(typed := input.typed[1..]);
        }
      }
    }

    /** `greet()` at the given hour of the day. */
    method Greet(hour: int)
      modifies this`spoken
      ensures spoken == old(spoken) + [Greeting(hour)]
    {
      if 6 <= hour < 12 {
        Speak(MorningGreeting);
      } else if 12 <= hour < 18 {
        Speak(AfternoonGreeting);
      } else {
        Speak(EveningGreeting);
      }
    }

    /** `get_time()`. */
    method GetTime()
      modifies this`spoken
      ensures spoken == old(spoken) + [TimeReply(services.clock)]
    {
      Speak(TimeReply(services.clock));
    }

    /** `get_date()`. */
    method GetDate()
      modifies this`spoken
      ensures spoken == old(spoken) + [DateReply(services.today)]
    {
      Speak(DateReply(services.today));
    }

    /** `search_wikipedia(query)`. */
    method SearchWikipedia(query: string)
      modifies this`spoken
      ensures spoken == old(spoken) + [SearchingWikipedia, WikiReply(services.wiki(WikiTopic(query)))]
    {
      Speak(SearchingWikipedia);
      var topic := WikiTopic(query);
      var result := services.wiki(topic);
      Speak(WikiReply(result));
    }

    /** `open_website(name)`. */
    method OpenWebsite(name: string)
      modifies this`spoken, this`browsed
      ensures name in KnownSites ==> browsed == old(browsed) + [KnownSites[name]]
      ensures name !in KnownSites ==> browsed == old(browsed)
      ensures spoken == old(spoken) + Visit(name, input).said
    {
      if name in KnownSites {
        browsed := browsed + [KnownSites[name]];
        Speak(OpeningMessage(name));
      } else {
        Speak(NotConfigured);
      }
    }

    /** `get_weather(city)`. */
    method GetWeather(city: string)
      modifies this`spoken
      ensures spoken == old(spoken) + [WeatherReply(city, services.weather(city))]
    {
      var result := services.weather(city);
      Speak(WeatherReply(city, result));
    }

    /** `tell_joke()`. */
    method TellJoke()
      modifies this`spoken
      ensures spoken == old(spoken) + [services.joke]
    {
      Speak(services.joke);
    }

    /** `compute_answer(query)`. */
    method ComputeAnswer(query: string)
      modifies this`spoken
      ensures spoken == old(spoken) + [ComputeReply(services.compute(query))]
    {
      var result := services.compute(query);
      Speak(ComputeReply(result));
    }

    /**
     * `send_email(receiver, subject, content)`: validate the address, build the
     * message header by header, run the SMTP session, and report; the result is
     * true only when the server accepted the letter.
     */
    method SendEmail(receiver: string, subject: string, content: string) returns (ok: bool)
      modifies this`spoken, this`attempted, this`sent
      ensures ok == SendOutcome(receiver, services.transport(Letter(services.sender, receiver, subject, content))).ok
      ensures var m := Mailing(services, receiver, subject, content, input);
        spoken == old(spoken) + m.said && attempted == old(attempted) + m.attempted && sent == old(sent) + m.sent
    {
      if !ValidateEmail(receiver) {
        Speak(InvalidFormatMessage);
        return false;
      }
      var email := new EmailMessage();
      email.from := services.sender;
      email.to := receiver;
      email.subject := subject;
      email.content := content;
      var letter := email.Value();
      attempted := attempted + [letter];
      var session := services.transport(letter);
      var fault: Option<Fault> := None;
      if session.connect.Failed? {
        fault := Some(session.connect.fault);
      } else {
        match session.login
        case AuthRejected =>
          Speak(LoginFailedMessage);
          return false;
        case LoginFailed(f) =>
          fault := Some(f);
        case LoggedIn =>
          if session.send.Failed? {
            fault := Some(session.send.fault);
          }
      }
      if fault.Some? {
        Speak(FaultMessage(fault.value));
        return false;
      }
      sent := sent + [letter];
      Speak(SentMessage(receiver));
      return true;
    }

    /** Speak a question, then take one command as its answer. */
    method Ask(question: string) returns (answer: Option<string>)
      modifies this`spoken, this`input
      ensures var t := Listen(old(input));
        answer == t.command && spoken == old(spoken) + ([question] + t.said) && input == t.rest
    {
      Speak(question);
      answer := TakeCommand();
    }

    /** The email command's three questions; `None` when an answer raises. */
    method FillEmailSlots() returns (answers: Option<Answers>)
      modifies this`spoken, this`input
      ensures var f := FillSlots(old(input));
        answers == f.answers && spoken == old(spoken) + f.said && input == f.rest
    {
      ghost var w := Current();
      ghost var t1 := Listen(input);
      var receiver := Ask(RecipientPrompt);
      if receiver.None? {
        return None;
      }
      ghost var said1 := [RecipientPrompt] + t1.said;
      ghost var t2 := Listen(input);
      var subject := Ask(SubjectPrompt);
      Associative(w.spoken, said1, [SubjectPrompt] + t2.said);
      if subject.None? {
        return None;
      }
      ghost var said2 := said1 + ([SubjectPrompt] + t2.said);
      ghost var t3 := Listen(input);
      var content := Ask(ContentPrompt);
      Associative(w.spoken, said2, [ContentPrompt] + t3.said);
      if content.None? {
        return None;
      }
      return Some(Answers(receiver.value, subject.value, content.value));
    }

    /**
     * The email branch of `execute_command`: ask for recipient, subject and body,
     * then send; an answer that raises cancels the email.
     */
    method EmailCommand()
      modifies this`spoken, this`input, this`attempted, this`sent
      ensures Current() == After(old(Current()), EmailDialogue(services, old(input)))
    {
      ghost var w := Current();
      ghost var f := FillSlots(input);
      var answers := FillEmailSlots();
      if answers.None? {
        Speak(CancelledMessage);
        Associative(w.spoken, f.said, [CancelledMessage]);
      } else {
        var a := answers.value;
        ghost var m := Mailing(services, a.receiver, a.subject, a.content, input);
        var _ := SendEmail(a.receiver, a.subject, a.content);
        Associative(w.spoken, f.said, m.said);
      }
    }

    /** The "open" branch of `execute_command` on the lower-cased command `q`. */
    method OpenCommand(q: string) returns (next: Next)
      modifies this`spoken, this`browsed
      ensures var e := OpenDialogue(q, old(input));
        next == e.next && Current() == After(old(Current()), e)
    {
      var name := SiteName(q);
      if name.None? {
        return Raised(NoSiteName);
      }
      OpenWebsite(name.value);
      next := Continue;
    }

    /** The weather branch of `execute_command`: ask for the city, then report its weather. */
    method WeatherCommand() returns (next: Next)
      modifies this`spoken, this`input
      ensures var e := WeatherDialogue(services, old(input));
        next == e.next && Current() == After(old(Current()), e)
    {
      var city := Ask(WhichCity);
      if city.None? {
        return Raised(EndOfInput);
      }
      if city.value != [] {
        GetWeather(city.value);
      }
      return Continue;
    }

    /**
     * `execute_command(query)`: route the lower-cased command to its handler by the
     * first trigger it contains (`Classify`, the `if`/`elif` chain); the result says
     * whether the loop goes on, or which exception escapes.
     */
    method ExecuteCommand(query: string) returns (next: Next)
      modifies this`spoken, this`browsed, this`input, this`attempted, this`sent
      ensures var e := Dispatch(services, query, old(input));
        next == e.next && Current() == After(old(Current()), e)
    {
      ghost var e := Dispatch(services, query, input);
      match Classify(query)
      case OpenSite =>
        assert e == OpenDialogue(Lower(query), input);
        next := OpenCommand(Lower(query));
      case Weather =>
        assert e == WeatherDialogue(services, input);
        next := WeatherCommand();
      case Email =>
        assert e == EmailDialogue(services, input);
        EmailCommand();
        next := Continue;
      case _ =>
        assert e == DirectReply(services, query, input);
        next := DirectCommand(query);
    }

    /** The branches of `execute_command` for the direct intents. */
    method DirectCommand(query: string) returns (next: Next)
      requires Direct(Classify(query))
      modifies this`spoken
      ensures var e := DirectReply(services, query, old(input));
        next == e.next && Current() == After(old(Current()), e)
    {
      ghost var w := Current();
      ghost var e := DirectReply(services, query, input);
      var q := Lower(query);
      next := Continue;
      match Classify(query) {
        case NoOp =>
        case Time => GetTime();
        case Date => GetDate();
        case Wikipedia => SearchWikipedia(q);
        case Joke => TellJoke();
        case Compute => ComputeAnswer(q);
        case Exit =>
          Speak(Goodbye);
          next := Halt;
        case Unrecognized => Speak(NotRecognized);
      }
      assert spoken == w.spoken + e.said;
      OnlySpoken(w, e);
    }

    /**
     * One pass of the main loop: take a command and execute it. `more` says
     * whether the loop goes on, `end` how the program ends if it does not.
     */
    method RunCycle() returns (more: bool, end: SessionEnd)
      modifies this`spoken, this`browsed, this`input, this`attempted, this`sent
      ensures var r := Cycle(services, old(input));
        more == r.more && end == r.trace.end && Current() == Record(old(Current()), r.trace)
    {
      ghost var before := Current();
      ghost var h := Listen(input);
      var command := TakeCommand();
      if command.None? {
        return false, Crashed(EndOfInput);
      }
      ghost var e := Dispatch(services, command.value, h.rest);
      var next := ExecuteCommand(command.value);
      PassRecorded(before, h.said, command.value, e);
      match next
      case Continue => more, end := true, UserExit;
      case Halt => more, end := false, UserExit;
      case Raised(error) => more, end := false, Crashed(error);
    }

    /**
     * The main program: greet, then take and execute commands until one returns
     * false or raises. The result says how the program ended.
     */
    method Run(hour: int) returns (end: SessionEnd)
      modifies this`spoken, this`browsed, this`input, this`attempted, this`sent
      ensures var t := Session(services, old(input));
        && end == t.end
        && Current() == Record(old(Current()).(spoken := old(spoken) + [Greeting(hour)]), t)
    {
      Greet(hour);
      ghost var start := Current();
      ghost var total := Session(services, input);
      ghost var done := Trace([], [], [], [], [], UserExit, input);
      var running := true;
      end := UserExit;
      while running
        invariant Current() == Record(start, done)
        invariant running ==> Then(done, Session(services, input)) == total
        invariant !running ==> done == total && end == total.end
        decreases Size(input) + if running then 1 else 0
      {
        ghost var r := Cycle(services, input);
        var more, ended := RunCycle();
        RecordThen(start, done, r.trace);
        if more {
          ThenAssociative(done, r.trace, Session(services, input));
        }
        done := Then(done, r.trace);
        end := ended;
        running := more;
      }
    }
  }

  /** A command that reads nothing and touches neither browser nor SMTP server changes only what is spoken. */
  lemma OnlySpoken(w: Snapshot, e: Effect)
    requires e.browsed == [] && e.attempted == [] && e.sent == [] && e.rest == w.input
    ensures After(w, e) == w.(spoken := w.spoken + e.said)
  {
  }

  /** Recording two stretches of session is recording them one after the other. */
  lemma RecordThen(w: Snapshot, a: Trace, b: Trace)
    ensures Record(w, Then(a, b)) == Record(Record(w, a), b)
  {
    assert w.spoken + (a.said + b.said) == w.spoken + a.said + b.said;
    assert w.browsed + (a.browsed + b.browsed) == w.browsed + a.browsed + b.browsed;
    assert w.attempted + (a.attempted + b.attempted) == w.attempted + a.attempted + b.attempted;
    assert w.sent + (a.sent + b.sent) == w.sent + a.sent + b.sent;
  }

  /** Taking a command and executing it is one pass of the loop. */
  lemma PassRecorded(w: Snapshot, heard: seq<string>, command: string, e: Effect)
    ensures After(w.(spoken := w.spoken + heard), e) == Record(w, Pass(heard, command, e))
  {
    assert w.spoken + heard + e.said == w.spoken + (heard + e.said);
  }

  /** Joining stretches of session is associative. */
  lemma ThenAssociative(a: Trace, b: Trace, c: Trace)
    ensures Then(Then(a, b), c) == Then(a, Then(b, c))
  {
    assert a.said + b.said + c.said == a.said + (b.said + c.said);
    assert a.browsed + b.browsed + c.browsed == a.browsed + (b.browsed + c.browsed);
    assert a.attempted + b.attempted + c.attempted == a.attempted + (b.attempted + c.attempted);
    assert a.sent + b.sent + c.sent == a.sent + (b.sent + c.sent);
    assert a.handled + b.handled + c.handled == a.handled + (b.handled + c.handled);
  }
}
