/**
 * The email command: address validation (voice_assistant.py:194-204), the SMTP
 * error text (voice_assistant.py:206-221), the outcome of `send_email`
 * (voice_assistant.py:145-192) and the slot filling that collects its arguments
 * (voice_assistant.py:298-308). The SMTP session itself is an abstract
 * `Transport` outcome.
 */
module Mail {
  import opened Wrappers
  import opened Text
  import opened Speech

  // ---------------------------------------------------------------- validate_email

  /** `validate_email`, as written: an '@', a '.' in the last '@'-piece, a non-empty first piece. */
  predicate ValidateEmail(email: string)
    ensures ValidateEmail(email) ==> '@' in email && email[0] != '@'
  {
    var parts := Split(email, '@');
    '@' in email && '.' in parts[|parts| - 1] && |parts[0]| > 0
  }

  /**
   * The address rule stated on positions: the address does not start with '@',
   * and some '.' follows an '@' after which no further '@' occurs.
   */
  ghost predicate WellFormedAddress(e: string) {
    && e != [] && e[0] != '@'
    && exists a, d :: 0 <= a < d < |e| && e[a] == '@' && e[d] == '.' && NoAtAfter(e, a)
  }

  ghost predicate NoAtAfter(e: string, a: int) {
    forall k :: 0 <= k < |e| && a < k ==> e[k] != '@'
  }

  /** `validate_email` accepts exactly the well-formed addresses. */
  lemma ValidateEmailSpec(e: string)
    ensures ValidateEmail(e) <==> WellFormedAddress(e)
  {
    var parts := Split(e, '@');
    var last := parts[|parts| - 1];
    var p := |e| - |last|;
    FirstPieceEmpty(e, '@');
    LastPiece(e, '@');
    assert forall k :: p <= k < |e| ==> e[k] == last[k - p];
    if ValidateEmail(e) {
      assert p >= 1 by {
        var i :| 0 <= i < |e| && e[i] == '@';
        assert '@' !in last;
      }
      var m :| 0 <= m < |last| && last[m] == '.';
      assert e[p - 1] == '@' && e[p + m] == '.' && NoAtAfter(e, p - 1);
    }
    if WellFormedAddress(e) {
      var a, d :| 0 <= a < d < |e| && e[a] == '@' && e[d] == '.' && NoAtAfter(e, a);
      assert a < p by {
        assert forall k :: p <= k < |e| ==> e[k] != '@';
      }
      assert e[p - 1] == '@';
      assert last[d - p] == '.';
    }
  }

  /** A plain address is accepted. */
  lemma AcceptedAddress()
    ensures ValidateEmail("a@b.com")
  {
    ValidateEmailSpec("a@b.com");
    assert "a@b.com"[1] == '@' && "a@b.com"[3] == '.' && NoAtAfter("a@b.com", 1);
  }

  /** Addresses without "@", with nothing before it, or without a dot after it are rejected. */
  lemma RejectedAddresses()
    ensures !ValidateEmail("ab.com")
    ensures !ValidateEmail("@b.com")
    ensures !ValidateEmail("a@b")
  {
    ValidateEmailSpec("a@b");
    assert "a@b"[1] == '@' && NoAtAfter("a@b", 1);
  }

  // ---------------------------------------------------------------- get_smtp_error

  /** The SMTP reply codes that have their own wording. */
  const SmtpCodeMessages: map<int, string> := map[
    550 := "Recipient mailbox not found",
    553 := "Invalid email address",
    554 := "Transaction failed"
  ]

  /**
   * `get_smtp_error`: the fixed wording for a known reply code, otherwise the
   * exception's own text (`code` is `None` when the exception carries no code).
   */
  function SmtpErrorText(code: Option<int>, text: string): (r: string)
    ensures code.Some? && code.value in SmtpCodeMessages ==> r == SmtpCodeMessages[code.value]
    ensures !(code.Some? && code.value in SmtpCodeMessages) ==> r == text
  {
    match code
    case Some(550) => "Recipient mailbox not found"
    case Some(553) => "Invalid email address"
    case Some(554) => "Transaction failed"
    case _ => text
  }

  // ---------------------------------------------------------------- send_email

  /** What a failing SMTP step raises, as far as `send_email` tells them apart. */
  datatype Fault =
    | RecipientsRefused                            // smtplib.SMTPRecipientsRefused
    | SmtpFault(code: Option<int>, text: string)   // any other smtplib.SMTPException
    | OtherFault(text: string)                     // anything else (socket errors, ...)

  datatype Step = Done | Failed(fault: Fault)

  /** The login step: the authentication failure is caught on its own. */
  datatype Login = LoggedIn | AuthRejected | LoginFailed(fault: Fault)

  /** How an SMTP session for one letter goes: connecting (with STARTTLS), logging in, sending. */
  datatype Transport = Transport(connect: Step, login: Login, send: Step)

  /** The message `send_email` builds: sender, recipient, subject and body. */
  datatype Letter = Letter(sender: string, receiver: string, subject: string, content: string)

  const InvalidFormatMessage := "Invalid email format. Please include @ and domain like example.com"
  const LoginFailedMessage := "Email login failed. Check your credentials."
  const RefusedMessage := "The recipient email was rejected. " + "Please check the address."
  const UnexpectedMessage := "An unexpected error occurred"
  const ServerErrorPrefix := "Email server error: "

  function SentMessage(receiver: string): string {
    "Email to " + receiver + " sent successfully!"
  }

  /**
   * The message the outer handlers of `send_email` speak for a fault: each class
   * of fault has a message of its own, and only an SMTP error reports its detail.
   */
  function FaultMessage(f: Fault): (r: string)
    ensures f.RecipientsRefused? <==> r == RefusedMessage
    ensures f.OtherFault? <==> r == UnexpectedMessage
    ensures f.SmtpFault? <==> ServerErrorPrefix <= r
    ensures f.SmtpFault? ==> r[|ServerErrorPrefix|..] == SmtpErrorText(f.code, f.text)
  {
    assert RefusedMessage[0] == 'T';
    assert UnexpectedMessage[0] == 'A';
    assert ServerErrorPrefix[0] == 'E';
    match f
    case RecipientsRefused => RefusedMessage
    case SmtpFault(code, text) => ServerErrorPrefix + SmtpErrorText(code, text)
    case OtherFault(_) => UnexpectedMessage
  }

  /** What `send_email` speaks and returns. */
  datatype Outcome = Outcome(message: string, ok: bool)

  /** The outcome of `send_email(receiver, ...)` when its SMTP session goes as `t`. */
  function SendOutcome(receiver: string, t: Transport): (o: Outcome)
    ensures o.ok <==> ValidateEmail(receiver) && t == Transport(Done, LoggedIn, Done)
    ensures !ValidateEmail(receiver) ==> o.message == InvalidFormatMessage
    ensures ValidateEmail(receiver) && t.connect.Failed? ==> o.message == FaultMessage(t.connect.fault)
    ensures ValidateEmail(receiver) && t.connect == Done && t.login == AuthRejected ==> o.message == LoginFailedMessage
    ensures ValidateEmail(receiver) && t.connect == Done && t.login.LoginFailed? ==> o.message == FaultMessage(t.login.fault)
    ensures ValidateEmail(receiver) && t.connect == Done && t.login == LoggedIn && t.send.Failed? ==>
              o.message == FaultMessage(t.send.fault)
    ensures o.ok ==> o.message == SentMessage(receiver)
  {
    if !ValidateEmail(receiver) then Outcome(InvalidFormatMessage, false)
    else match (t.connect, t.login, t.send)
      case (Failed(f), _, _) => Outcome(FaultMessage(f), false)
      case (Done, AuthRejected, _) => Outcome(LoginFailedMessage, false)
      case (Done, LoginFailed(f), _) => Outcome(FaultMessage(f), false)
      case (Done, LoggedIn, Failed(f)) => Outcome(FaultMessage(f), false)
      case (Done, LoggedIn, Done) => Outcome(SentMessage(receiver), true)
  }

  /** The `EmailMessage` object `send_email` fills in header by header. */
  class EmailMessage {
    var from: string
    var to: string
    var subject: string
    var content: string

    constructor ()
      ensures from == [] && to == [] && subject == [] && content == []
    {
      from, to, subject, content := [], [], [], [];
    }

    /** The message as a value. */
    function Value(): Letter
      reads this
    {
      Letter(from, to, subject, content)
    }
  }

  // ---------------------------------------------------------------- slot filling

  const RecipientPrompt := "Recipient's email?"
  const SubjectPrompt := "Email subject?"
  const ContentPrompt := "Message content?"
  const CancelledMessage := "Email cancelled"

  /** The three answers the email command collects. */
  datatype Answers = Answers(receiver: string, subject: string, content: string)

  /**
   * What the three questions of the email command say, their answers (`None`
   * when one of them raised), and the input left over.
   */
  datatype SlotRun = SlotRun(said: seq<string>, answers: Option<Answers>, rest: Input)

  /**
   * The email command's questions, each followed by one `take_command`; the
   * first answer that raises skips the questions after it.
   */
  function FillSlots(inp: Input): (r: SlotRun)
    ensures Size(r.rest) <= Size(inp)
  {
    var t1 := Listen(inp);
    var said1 := [RecipientPrompt] + t1.said;
    if t1.command.None? then SlotRun(said1, None, t1.rest) else
    var t2 := Listen(t1.rest);
    var said2 := said1 + ([SubjectPrompt] + t2.said);
    if t2.command.None? then SlotRun(said2, None, t2.rest) else
    var t3 := Listen(t2.rest);
    var said3 := said2 + ([ContentPrompt] + t3.said);
    if t3.command.None? then SlotRun(said3, None, t3.rest)
    else SlotRun(said3, Some(Answers(t1.command.value, t2.command.value, t3.command.value)), t3.rest)
  }

  /**
   * When the three answers are recognized speech, the prompts are spoken in order,
   * nothing else is said, and the answers are the lower-cased transcripts.
   */
  lemma SlotsFromSpeech(a: string, b: string, c: string, more: seq<Capture>, typed: seq<string>)
    ensures var r := FillSlots(Input([Recognized(a), Recognized(b), Recognized(c)] + more, typed));
      && r.said == [RecipientPrompt, SubjectPrompt, ContentPrompt]
      && r.answers == Some(Answers(Lower(a), Lower(b), Lower(c)))
      && r.rest == Input(more, typed)
  {
    ListenRecognized(a, [Recognized(b), Recognized(c)] + more, typed);
    ListenRecognized(b, [Recognized(c)] + more, typed);
    ListenRecognized(c, more, typed);
    assert [Recognized(a), Recognized(b), Recognized(c)] + more == [Recognized(a)] + ([Recognized(b), Recognized(c)] + more);
    assert [Recognized(b), Recognized(c)] + more == [Recognized(b)] + ([Recognized(c)] + more);
  }

  /**
   * Every question is asked after the ones before it were answered: the email
   * command starts with the recipient question; it is cancelled only once the
   * keyboard has run out; when it completes it has consumed at least three
   * inputs, and all three answers are lower-case.
   */
  lemma SlotFillingOutcome(inp: Input)
    ensures var r := FillSlots(inp);
      && r.said != [] && r.said[0] == RecipientPrompt
      && (r.answers.None? ==> r.rest.typed == [])
      && (r.answers.Some? ==> Size(r.rest) + 3 <= Size(inp))
      && (r.answers.Some? ==>
            NoUpper(r.answers.value.receiver) && NoUpper(r.answers.value.subject) && NoUpper(r.answers.value.content))
  {
    var t1 := Listen(inp);
    ListenSpec(inp);
    ListenSpec(t1.rest);
    ListenSpec(Listen(t1.rest).rest);
  }
}
