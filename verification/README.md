# Voice assistant, modelled in Dafny

`voice_assistant.py` is a command-line voice assistant. It greets the user according to the hour. Then it loops:

- It takes one command. It listens on the microphone and, when recognition fails, apologises and reads a typed line instead.
- It lower-cases the command and routes it by the first keyword it contains: time, date, an encyclopedia search, opening one of eight configured web sites, the weather (after asking for the city), a joke, an email (after asking for recipient, subject and body), a computation, or exit.
- It stops when the exit command returns false, or when an exception escapes the loop.

The model is in nine modules:

| module | file | what it holds |
|---|---|---|
| `Wrappers` | wrappers.dfy | `Option` |
| `Text` | text.dfy | The Python string operations the program uses: `lower()`, `in`, `split(sep)`, `split()`, `strip()` and `replace(pat, "")`. Each is a function with its meaning proved. |
| `Speech` | speech.dfy | `take_command` as a pure function of the input still to come. Each listening attempt is an abstract `Capture` outcome, and the keyboard is a queue of typed lines. |
| `Routing` | routing.dfy | The `if`/`elif` chain of `execute_command` (`Classify`), proved equal to first-match over a rule table. |
| `Sites` | sites.dfy | The site table and the site-name extraction of the "open" command. |
| `Mail` | mail.dfy | `validate_email`, `get_smtp_error`, the outcome of `send_email` for every way its SMTP session can go, the `EmailMessage` object, and the three-question slot filling. |
| `Replies` | replies.dfy | What the greeting, time, date, encyclopedia, weather and computation handlers say. |
| `Commands` | commands.dfy | Two specification functions. `Dispatch` is what one command does: speech, browser, mail, input consumed and how it ends. `Session` is what the main loop does. |
| `Assistant` | assistant.dfy | Class `VoiceAssistant`. Its fields are what it has spoken, browsed, attempted to mail, sent, and the input still to come. Its methods are the program's functions, each proved to change that state exactly as `Dispatch` or `Session` says. |

The main loop terminates without any fuel bound. Every command that lets the loop go on consumes input. Once the microphone has nothing more to deliver it times out. Once the keyboard is exhausted, `input()` raises `EOFError`, which nothing in the loop catches.

Where the program's documentation promises more than its code does, the model follows the code:

- The command is not trimmed.
- A command of blanks is not empty. It gets "Command not recognized" and nothing else happens (`Commands.BlankGetsNotRecognized`).
- The exit keywords are tested second to last, so "exit time" tells the time and keeps running (`Routing.ExitDoesNotAlwaysHalt`).
- The site name is `split("open ")[1].split()[0]`. That is the first word between the first and the second "open ", not the first word of the rest of the command. So "open open youtube" raises `IndexError` (`Sites.OpenTwice`), as does "open " with nothing after it (`Sites.OpenWithoutName`).
- These exceptions escape `execute_command` and end the program:
  - `IndexError` from the site-name lookup;
  - `EOFError` from the city question;
  - `EOFError` from the main loop's own `take_command`.

  `EOFError` during the email questions is caught and gives "Email cancelled".
- Missing API keys or credentials are not checked up front. They surface as the service's own failure answer.

## Model

| member | source | states |
|---|---|---|
| Text.LowerChar | voice_assistant.py:276 | the k-th upper-case ASCII letter becomes the k-th lower-case letter, and every other character is left unchanged; the result is never an upper-case letter |
| Text.Lower | voice_assistant.py:276 | length is kept and each character is lower-cased on its own, upper-case ASCII letters to their lower-case letter |
| Text.LowerHasNoUpper | voice_assistant.py:276 | a lower-cased command contains no upper-case letter |
| Text.LowerOfLower | voice_assistant.py:276 | lower-casing a command that is already lower-case (as `take_command` returns it) changes nothing |
| Text.LowerIdempotent | voice_assistant.py:276 | lower-casing twice is the same as lower-casing once |
| Text.IndexOf | voice_assistant.py:282-311 | a found index leaves room for the whole pattern |
| Text.IndexOfSpec | voice_assistant.py:282-311 | the pattern occurs at the index found and at no earlier index, and it occurs nowhere when nothing is found |
| Text.ShiftOccurrence | voice_assistant.py:282-311 | an occurrence in the tail is an occurrence one place later in the whole, and back |
| Text.ContainsAt | voice_assistant.py:282-311 | `t in s` holds whenever `t` occurs somewhere in `s` |
| Text.MissingCharNotContained | voice_assistant.py:282-311 | a pattern with a character the text lacks occurs nowhere in it |
| Text.UpTo | voice_assistant.py:289 | the first piece of a split is never longer than the text |
| Text.UpToSpec | voice_assistant.py:289 | the first piece of a split is a prefix of the text, contains no separator, and is either all of the text or followed in it by the separator |
| Text.SecondPiece | voice_assistant.py:289 | there is no second piece exactly when the separator does not occur (Python's `IndexError`) |
| Text.SecondPieceSpec | voice_assistant.py:289 | the second piece is a prefix of the text after the first separator, contains no separator, and is either all of that text or followed in it by the separator |
| Text.CutAtFirst | voice_assistant.py:289 | the text before the first occurrence of a pattern does not contain it |
| Text.PrefixOccurrence | voice_assistant.py:289 | an occurrence inside a prefix is an occurrence in the whole |
| Text.Split | voice_assistant.py:203-204 | there is at least one piece, no piece contains the separator, and there is a single piece exactly when the separator is absent |
| Text.JoinSplit | voice_assistant.py:203-204 | joining the pieces with the separator gives back the original text |
| Text.FirstPieceEmpty | voice_assistant.py:204 | the first piece is empty exactly when the text is empty or starts with the separator |
| Text.LastPiece | voice_assistant.py:203 | the last piece is the suffix after the last separator, or all of the text when there is none |
| Text.LeadingSpace | voice_assistant.py:289 | it counts a blank prefix followed by a non-blank or the end |
| Text.TrailingSpace | voice_assistant.py:114 | it counts a blank suffix preceded by a non-blank or the start |
| Text.SpaceThenLast | voice_assistant.py:114 | a run of blanks before a blank last character reaches the end |
| Text.Word | voice_assistant.py:289 | the result is a blank-free prefix, followed by a blank or the end |
| Text.FirstToken | voice_assistant.py:289 | there is no token exactly when the text is all blanks; otherwise the token is the non-empty blank-free word after the leading blanks, ending at a blank or the end |
| Text.Strip | voice_assistant.py:114 | the result is a slice with only blanks cut off on either side, and it neither starts nor ends with a blank |
| Text.SpacesFrom | voice_assistant.py:114 | every character of an all-blank suffix is a blank |
| Text.RemoveAll | voice_assistant.py:114 | removing a pattern never lengthens the text |
| Text.RemoveAtFirst | voice_assistant.py:114 | removing a pattern keeps the text before its first occurrence, drops that occurrence, and goes on removing in the rest |
| Text.RemoveAtLater | voice_assistant.py:114 | the same, for a first occurrence that is not at the start of the text |
| Text.RemoveAbsent | voice_assistant.py:114 | removing a pattern that does not occur changes nothing |
| Speech.Apology | voice_assistant.py:73-84 | every apology asks the user to type the command |
| Speech.ApologiesDiffer | voice_assistant.py:73-84 | the three failure classes get three different apologies |
| Speech.Resolve | voice_assistant.py:51-84 | `take_command` raises exactly when listening fails and no typed line is left |
| Speech.ResolveSpec | voice_assistant.py:51-84 | a recognized transcript is returned lower-cased and nothing is said; a failure says its apology and returns the typed line lower-cased; every command returned is lower-case |
| Speech.Listen | voice_assistant.py:45-84 | input is never created, and a returned command always consumes some |
| Speech.ListenSpec | voice_assistant.py:45-84 | commands are lower-case; `take_command` raises only after an apology, and only once the keyboard has run out |
| Speech.ListenRecognized | voice_assistant.py:69-71 | a recognized transcript is the command, lower-cased, nothing is said and the keyboard is untouched |
| Speech.TypedReadOnlyOnFailure | voice_assistant.py:73-84 | the keyboard is read exactly when recognition fails, after the matching apology, and its line becomes the command |
| Routing.Classify | voice_assistant.py:276-315 | only the empty command does nothing, and a command that contains "time" always gets the time, whatever else it contains |
| Routing.KeepsRunning | voice_assistant.py:311-317 | `execute_command` returns false exactly when "exit" or "bye" occurs and none of the eight earlier rules fires |
| Routing.FirstMatchWins | voice_assistant.py:282-315 | in a table of distinct intents, rule k wins exactly when it fires and no earlier rule does |
| Routing.FirstMatchIsLater | voice_assistant.py:282-315 | the winner is the catch-all or the intent of a rule that fires |
| Routing.FirstMatchNone | voice_assistant.py:314-315 | the catch-all wins exactly when no rule fires |
| Routing.RulesDistinct | voice_assistant.py:282-313 | the routing table lists every intent once, and never the catch-all |
| Routing.ClassifyIsFirstMatch | voice_assistant.py:282-315 | for a non-empty command the `elif` chain equals first-match over the rule table |
| Routing.LaterRules | voice_assistant.py:296-315 | from "joke" on, first-match over the table is the tail of the `elif` chain |
| Routing.RoutingPrecedence | voice_assistant.py:282-313 | a non-empty command gets rule i's intent exactly when one of rule i's keywords occurs and no keyword of an earlier rule does |
| Routing.RoutingFallThrough | voice_assistant.py:314-315 | "Command not recognized" is reached exactly by a non-empty command that no rule matches |
| Routing.ExitRule | voice_assistant.py:311-313 | the exit intent is chosen exactly when "exit" or "bye" occurs and no earlier rule fires |
| Routing.OnlyEmptyIsNoOp | voice_assistant.py:278-279 | only the empty command does nothing |
| Routing.WeatherBeforeCompute | voice_assistant.py:291-310 | "what is the weather" goes to the weather handler, not the computation |
| Routing.NamesTheWeather | voice_assistant.py:291 | "what is the weather" is lower-case and contains "weather" |
| Routing.WeatherBranch | voice_assistant.py:282-292 | a command that contains "weather" and none of the four earlier keywords reaches the weather branch |
| Routing.EarlierTriggersAbsent | voice_assistant.py:282-288 | "what is the weather" contains none of "time", "date", "wikipedia" and "open " |
| Routing.ExitDoesNotAlwaysHalt | voice_assistant.py:282-313 | "exit time" tells the time instead of exiting |
| Routing.BlankIsUnrecognized | voice_assistant.py:278-315 | a command of blanks is not empty, matches no keyword and is not recognized |
| Routing.BlankLacks | voice_assistant.py:282-311 | no keyword occurs in a command of blanks |
| Sites.SiteNamesAreWords | voice_assistant.py:128-137 | every configured site name is a non-empty lower-case word without blanks, so a command can name it |
| Sites.SiteName | voice_assistant.py:289 | a site name exists only after "open ", and it is a non-empty blank-free word; after "open " it is missing exactly when the piece up to the next "open " is all blanks |
| Sites.SiteNameIsFirstWord | voice_assistant.py:289 | the site name is the first word after the first "open ", provided no second "open " starts before that word ends |
| Sites.SiteNameOfPiece | voice_assistant.py:289 | when the piece after "open " is blanks, a word, then a blank or nothing, that word is the site name |
| Sites.PieceKeepsWord | voice_assistant.py:289 | a piece cut off at the next "open " keeps a word that no "open " interrupts, whole |
| Sites.FirstTokenOf | voice_assistant.py:289 | blanks, then a word, then a blank or the end: that word is the first token |
| Sites.OpenYoutubeName | voice_assistant.py:288-290 | "open youtube" names youtube |
| Sites.OpenWithoutName | voice_assistant.py:289 | "open " alone has no site name (`IndexError`) |
| Sites.OpenTwice | voice_assistant.py:289 | "open open youtube" has no site name (`IndexError`) |
| Mail.ValidateEmail | voice_assistant.py:202-204 | an accepted address contains "@" and does not start with it |
| Mail.ValidateEmailSpec | voice_assistant.py:202-204 | an address passes exactly when it does not start with "@" and has a "." somewhere after its last "@" |
| Mail.AcceptedAddress | voice_assistant.py:202-204 | "a@b.com" passes |
| Mail.RejectedAddresses | voice_assistant.py:202-204 | an address without "@", with nothing before it, or without a "." after it fails |
| Mail.SmtpErrorText | voice_assistant.py:214-221 | reply codes 550, 553 and 554 get their fixed wording; anything else falls back to the exception's text |
| Mail.FaultMessage | voice_assistant.py:184-192 | a refused recipient, an SMTP error and any other exception each get their own message; only an SMTP error's message carries detail, namely the text for its reply code after "Email server error: " |
| Mail.SendOutcome | voice_assistant.py:155-192 | success exactly for a valid address whose connection, login and sending all succeed. An invalid address gets the format message and a rejected login the login message. A fault while connecting, while logging in or while sending gets the message for that fault. Success announces the recipient. |
| Mail.EmailMessage.constructor | voice_assistant.py:162 | a fresh message has every header and the body empty |
| Mail.FillSlots | voice_assistant.py:299-305 | the questions never create input |
| Mail.SlotsFromSpeech | voice_assistant.py:299-305 | with three recognized answers, the three prompts are spoken in order and nothing else; the answers are the lower-cased transcripts |
| Mail.SlotFillingOutcome | voice_assistant.py:298-308 | the recipient question comes first; cancellation happens only once the keyboard has run out; completion consumes at least three inputs and gives lower-case answers |
| Replies.Greeting | voice_assistant.py:88-94 | morning exactly for hours 6 to 11, afternoon exactly for 12 to 17, evening exactly for the rest |
| Replies.WikiTopic | voice_assistant.py:114 | the searched topic is no longer than the command and neither starts nor ends with a blank |
| Replies.WikiTopicOfOneMention | voice_assistant.py:114 | when "wikipedia" occurs once, the topic is the text before it joined to the text after it, stripped |
| Replies.WikiTopicExample | voice_assistant.py:114 | "wikipedia python" searches for "python" |
| Replies.WikiReply | voice_assistant.py:115-120 | a summary is spoken after "According to Wikipedia: "; an ambiguous topic and any other failure each get their own message |
| Replies.WeatherReply | voice_assistant.py:237-245 | a report starts with "Weather in <city>: " and ends with the humidity's "%"; an unknown city and an unavailable service each get their own message |
| Replies.ComputeReply | voice_assistant.py:258-265 | the engine's first answer is spoken word for word; no answer and an unavailable service get two different messages |
| Commands.Visit | voice_assistant.py:139-143 | a configured site's URL is opened and announced; otherwise nothing is opened and "Website not configured" is said; nothing is read or mailed |
| Commands.OpenDialogue | voice_assistant.py:288-290 | the "open" branch raises `IndexError` exactly when there is no site name, and it reads and mails nothing |
| Commands.WeatherDialogue | voice_assistant.py:291-295 | the weather branch raises exactly when the city question finds no input; it never opens a site or mails |
| Commands.Mailing | voice_assistant.py:155-192 | a letter from the configured sender is recorded exactly for a valid address; it counts as sent exactly when the SMTP session also succeeds; the one message spoken is `SendOutcome`'s; no input is read and no site opened |
| Commands.EmailDialogue | voice_assistant.py:298-308 | the email branch never raises and never creates input |
| Commands.DirectReply | voice_assistant.py:278-315 | the other branches read nothing, open nothing and mail nothing; only exit returns false. The empty command says nothing; time, date, encyclopedia, joke and computation say their reply; exit says goodbye; anything else says "Command not recognized" |
| Commands.Dispatch | voice_assistant.py:268-317 | a command never creates input |
| Commands.DispatchEnds | voice_assistant.py:268-317 | a command returns false exactly for the exit intent (equivalently, when `KeepsRunning` is false). It raises `IndexError` exactly for "open" without a site name, and `EOFError` exactly when the city question finds no input. |
| Commands.FinalEffects | voice_assistant.py:291-313 | exit says only goodbye and reads nothing; `EOFError` comes only once the keyboard has run out |
| Commands.BlankGetsNotRecognized | voice_assistant.py:278-315 | a command of blanks says only "Command not recognized", reads, opens and mails nothing, and keeps the loop going |
| Commands.SilentOnlyWhenEmpty | voice_assistant.py:278-315 | a command says nothing exactly when it is empty or an "open" without a site name |
| Commands.OnlyOpenBrowses | voice_assistant.py:288-290 | only "open" drives the browser: at most one URL, and only a configured one |
| Commands.OnlyEmailMails | voice_assistant.py:298-308 | only "email" starts an SMTP session, for at most one letter, from the configured sender to a validated address; a letter counts as sent only if its session was started |
| Commands.EmailDialogueMails | voice_assistant.py:155-182 | the email dialogue starts an SMTP session for at most one letter, from the configured sender to a validated address; a sent letter is one whose session was started |
| Commands.OnlyDialoguesReadInput | voice_assistant.py:282-315 | only the weather and email branches read further input |
| Commands.OpenSiteEffect | voice_assistant.py:288-290 | "open <site>" opens the site's URL and says "Opening <site>" exactly when the site is configured |
| Commands.WeatherAsksForCity | voice_assistant.py:291-295 | the weather branch asks "Which city?" first and reports the weather only for a non-empty answer |
| Commands.EmailBySpeech | voice_assistant.py:298-308 | three spoken answers become recipient, subject and body. For a valid address and a working SMTP session, the letter is sent and the success message is the last thing said. |
| Commands.EmailDialogueBySpeech | voice_assistant.py:298-306 | the same facts for the email dialogue on its own |
| Commands.EmailNeverRaises | voice_assistant.py:298-308 | the email branch never raises. A raising answer gives exactly "Email cancelled", and only once the keyboard has run out. An invalid address sends nothing and says the format message. |
| Commands.Cycle | voice_assistant.py:324-326 | one pass never creates input, and the loop goes on only after a pass that consumed input |
| Commands.Session | voice_assistant.py:320-326 | a session never creates input; it ends because every continued pass consumes input |
| Commands.SessionStopsAtFirstExit | voice_assistant.py:320-326 | every session is well ended. Handled commands are lower-case, and none before the last is an exit or an "open" without a site name. The session ends by the user's choice exactly when the last command is an exit, and then "Goodbye" is the last thing said. It ends with `IndexError` exactly when the last command is an "open" without a site name. An `EOFError` end comes only once the keyboard has run out. |
| Commands.LastPassWellEnded | voice_assistant.py:324-326 | a pass that stops the loop is a well-ended session |
| Commands.ContinuedWellEnded | voice_assistant.py:324-326 | a pass that neither exits nor raises `IndexError`, followed by a well-ended session, is a well-ended session |
| Commands.Prepended | voice_assistant.py:324-326 | a lower-case command that does not stop the loop, placed in front, keeps "only the last may stop the loop" and keeps the last command |
| Assistant.VoiceAssistant.constructor | voice_assistant.py:27-29 | a fresh assistant has said, opened and mailed nothing, and has the whole input ahead |
| Assistant.VoiceAssistant.Speak | voice_assistant.py:36-43 | the text is appended to what has been spoken |
| Assistant.VoiceAssistant.TakeCommand | voice_assistant.py:45-84 | the command, what is said and the input consumed are those of `Listen` |
| Assistant.VoiceAssistant.Greet | voice_assistant.py:86-94 | the greeting for the hour is spoken |
| Assistant.VoiceAssistant.GetTime | voice_assistant.py:96-99 | "It's" and the clock are spoken |
| Assistant.VoiceAssistant.GetDate | voice_assistant.py:101-104 | "Today is" and the date are spoken |
| Assistant.VoiceAssistant.SearchWikipedia | voice_assistant.py:106-120 | "Searching Wikipedia..." is spoken, then the reply for the stripped topic |
| Assistant.VoiceAssistant.OpenWebsite | voice_assistant.py:122-143 | a configured site's URL is appended to what has been browsed and announced; otherwise nothing is opened |
| Assistant.VoiceAssistant.GetWeather | voice_assistant.py:223-246 | the weather reply for the city is spoken |
| Assistant.VoiceAssistant.TellJoke | voice_assistant.py:248-250 | the joke is spoken |
| Assistant.VoiceAssistant.ComputeAnswer | voice_assistant.py:252-266 | the computation reply is spoken |
| Assistant.VoiceAssistant.SendEmail | voice_assistant.py:145-192 | the result is `SendOutcome`'s; what is spoken, the letter recorded for an SMTP session and the letter sent are exactly `Mailing`'s |
| Assistant.VoiceAssistant.Ask | voice_assistant.py:300-305 | the question is spoken before the answer is taken |
| Assistant.VoiceAssistant.FillEmailSlots | voice_assistant.py:299-305 | answers, speech and input consumed are those of `FillSlots` |
| Assistant.VoiceAssistant.EmailCommand | voice_assistant.py:298-308 | the new state is the old one after `EmailDialogue` |
| Assistant.VoiceAssistant.OpenCommand | voice_assistant.py:288-290 | the result and new state are those of `OpenDialogue` |
| Assistant.VoiceAssistant.WeatherCommand | voice_assistant.py:291-295 | the result and new state are those of `WeatherDialogue` |
| Assistant.VoiceAssistant.ExecuteCommand | voice_assistant.py:268-317 | the result and new state are those of `Dispatch` |
| Assistant.VoiceAssistant.DirectCommand | voice_assistant.py:282-315 | the result and new state are those of `DirectReply` |
| Assistant.VoiceAssistant.RunCycle | voice_assistant.py:324-326 | whether the loop goes on, how it ends, and the new state are those of `Cycle` |
| Assistant.VoiceAssistant.Run | voice_assistant.py:320-326 | after the greeting, the final state and how the program ends are exactly those of `Session` |
| Assistant.OnlySpoken | voice_assistant.py:282-315 | a command that reads, opens and mails nothing changes only what has been spoken |
| Assistant.PassRecorded | voice_assistant.py:325-326 | taking a command and executing it records exactly one pass of the loop |
| Assistant.RecordThen | voice_assistant.py:324-326 | recording two stretches of session is recording them one after the other |
| Assistant.ThenAssociative | voice_assistant.py:324-326 | joining stretches of session is associative |

## Left out

- Audio: the microphone, ambient-noise calibration, the recognizer's thresholds and timeouts, and the text-to-speech engine and its voice settings are not modelled. Speech is the sequence of texts passed to `speak`, and each listening attempt is an abstract `Capture` outcome.
- Console output (`print`) is not modelled. Its messages only duplicate what is spoken or add diagnostics.
- The clock is a parameter. `greet` takes the hour, and the time and date handlers take the text that `strftime` would produce. The format strings themselves are not modelled.
- The clock text and the date text are fixed for a whole session, held in `Services`. So two time commands in one session say the same time, whereas the program reads the clock afresh for each.
- External services are functions fixed for a whole session, held in `Services`. These are the encyclopedia, the weather service with its URL and JSON decoding, the computation engine, the joke library and the SMTP session. The configured sender comes from the environment. A service that answered differently to the same question twice is not modelled.
- Environment variables and `.env` loading are left out, except for the sender address. Missing keys only change a service's answer, and that answer is already a parameter.
- SMTP details are reduced to an abstract `Transport` outcome: connect with STARTTLS, then log in, then send. The server name, the port and closing the connection are left out.
- `KeyboardInterrupt` and other interruptions from outside are not modelled.
- Text.Lower: only ASCII letters are lower-cased, because the model has no Unicode case tables. Python's `str.lower()` also maps non-ASCII letters.
- Text.Strip: only ASCII whitespace counts as blank, here and in `split()`. Python also strips Unicode spaces.
- Commands.Dispatch: its own contract states only that input is never created. What each command does is stated by `DispatchEnds`, `FinalEffects`, `SilentOnlyWhenEmpty`, `OnlyOpenBrowses`, `OnlyEmailMails`, `OnlyDialoguesReadInput` and the branch lemmas.
- Commands.EmailDialogue: its own contract states only that it never raises and never creates input. What it says and sends is stated by `EmailNeverRaises`, `EmailDialogueMails` and `EmailDialogueBySpeech`.
- Mail.FillSlots: its own contract states only that input is never created. The order of the questions and what they collect is stated by `SlotsFromSpeech` and `SlotFillingOutcome`.
- The message text of an unexpected `send_email` exception is not modelled. Only "An unexpected error occurred" is spoken, and the rest goes to the console.
