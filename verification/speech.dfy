/**
 * The input side of the assistant: `take_command`, which listens once and falls
 * back to a typed line when recognition fails (voice_assistant.py:45-84).
 * The microphone and the recognizer are not modelled; each listening attempt is
 * an abstract `Capture` outcome, and the keyboard is a queue of typed lines.
 */
module Speech {
  import opened Wrappers
  import opened Text

  /** The outcome of one listening attempt: a transcript or one of the three failure classes. */
  datatype Capture =
    | Recognized(transcript: string)
    | Timeout        // no speech started within the wait limit (sr.WaitTimeoutError)
    | Unrecognized   // speech heard but not understood (sr.UnknownValueError)
    | OtherError     // any other exception: device, network or service failure

  /**
   * The user's side of a session: the outcomes the recognizer will produce, in
   * order, and the lines the user will type. Once `captures` is exhausted the user
   * says nothing more, which the recognizer reports as a timeout; once `typed` is
   * exhausted, `input()` reaches end of file and raises `EOFError`.
   */
  datatype Input = Input(captures: seq<Capture>, typed: seq<string>)

  /** How much input is left; every successful `take_command` consumes some. */
  function Size(inp: Input): nat {
    |inp.captures| + |inp.typed|
  }

  const TypeRequest := "Please type your command"
  const NoSpeechApology := "I didn't hear you. " + TypeRequest + " instead."
  const NotUnderstoodApology := "I didn't understand. " + TypeRequest + "."
  const TechnicalApology := "There was a technical issue. " + TypeRequest + "."

  /**
   * The apology spoken for each failure class before falling back to typed
   * input; every one of them asks the user to type the command.
   */
  function Apology(c: Capture): (r: string)
    requires !c.Recognized?
    ensures Contains(r, TypeRequest)
  {
    match c
    case Timeout =>
      ContainsAt(NoSpeechApology, TypeRequest, 19);
      NoSpeechApology
    case Unrecognized =>
      ContainsAt(NotUnderstoodApology, TypeRequest, 21);
      NotUnderstoodApology
    case OtherError =>
      ContainsAt(TechnicalApology, TypeRequest, 29);
      TechnicalApology
  }

  /** Each failure class has its own apology. */
  lemma ApologiesDiffer(c: Capture, d: Capture)
    requires !c.Recognized? && !d.Recognized? && c != d
    ensures Apology(c) != Apology(d)
  {
  }

  /** What one `take_command` call says and returns; `None` when it raises `EOFError`. */
  datatype Heard = Heard(said: seq<string>, command: Option<string>)

  /**
   * `take_command` for one capture outcome and the typed line it would read
   * (`None` for end of file).
   */
  function Resolve(c: Capture, typed: Option<string>): (h: Heard)
    ensures h.command.None? <==> !c.Recognized? && typed.None?
  {
    match c
    case Recognized(t) => Heard([], Some(Lower(t)))
    case _ =>
      Heard([Apology(c)], match typed case Some(line) => Some(Lower(line)) case None => None)
  }

  /** The capture outcome the next listening attempt yields. */
  function NextCapture(inp: Input): Capture {
    if inp.captures == [] then Timeout else inp.captures[0]
  }

  /** The next typed line, or `None` at end of file. */
  function NextLine(inp: Input): Option<string> {
    if inp.typed == [] then None else Some(inp.typed[0])
  }

  /**
   * `take_command` on one capture: a recognized transcript is returned lower-cased
   * and nothing is said; otherwise the failure's apology is said and the typed line
   * is returned lower-cased, or the call raises when there is none.
   */
  lemma ResolveSpec(c: Capture, typed: Option<string>)
    ensures var h := Resolve(c, typed);
      && (h.command.Some? ==> NoUpper(h.command.value))
      && (c.Recognized? ==> h.said == [] && h.command == Some(Lower(c.transcript)))
      && (!c.Recognized? ==> h.said == [Apology(c)])
      && (!c.Recognized? && typed.Some? ==> h.command == Some(Lower(typed.value)))
  {
    LowerHasNoUpper(if c.Recognized? then c.transcript else if typed.Some? then typed.value else []);
  }

  /** One `take_command` call against the input queues, with the input left over. */
  datatype Turn = Turn(said: seq<string>, command: Option<string>, rest: Input)

  function Listen(inp: Input): (t: Turn)
    ensures Size(t.rest) <= Size(inp)
    ensures t.command.Some? ==> Size(t.rest) < Size(inp)
  {
    var c := NextCapture(inp);
    var h := Resolve(c, NextLine(inp));
    var captures := if inp.captures == [] then [] else inp.captures[1..];
    var typed := if c.Recognized? || inp.typed == [] then inp.typed else inp.typed[1..];
    Turn(h.said, h.command, Input(captures, typed))
  }

  /**
   * A command is always lower-case, and `take_command` raises only after saying
   * an apology and finding the keyboard exhausted.
   */
  lemma ListenSpec(inp: Input)
    ensures var t := Listen(inp);
      && (t.command.Some? ==> NoUpper(t.command.value))
      && (t.command.None? ==> t.rest.typed == [] && inp.typed == [] && t.said != [])
  {
    ResolveSpec(NextCapture(inp), NextLine(inp));
  }

  /** A recognized transcript is the command, lower-cased, and nothing is said. */
  lemma ListenRecognized(transcript: string, more: seq<Capture>, typed: seq<string>)
    ensures Listen(Input([Recognized(transcript)] + more, typed)) == Turn([], Some(Lower(transcript)), Input(more, typed))
  {
    assert ([Recognized(transcript)] + more)[1..] == more;
  }

  /**
   * The typed fallback is read exactly when listening fails, and a recognized
   * transcript leaves the keyboard untouched.
   */
  lemma TypedReadOnlyOnFailure(inp: Input)
    ensures var t := Listen(inp);
      && (NextCapture(inp).Recognized? ==> t.rest.typed == inp.typed && t.said == [])
      && (!NextCapture(inp).Recognized? && inp.typed != [] ==>
            t.rest.typed == inp.typed[1..] && t.said == [Apology(NextCapture(inp))]
            && t.command == Some(Lower(inp.typed[0])))
  {
  }
}
