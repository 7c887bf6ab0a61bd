# Colodetinho registration bot: a Dafny model

A Telegram bot (`bot.ts`) registers users through a conversation. It asks
for a name and an email, mails a six-digit confirmation code and checks the
typed code. It then asks whether the user registers with a CPF (individual
taxpayer number) or a CNPJ (business taxpayer number), checks that number's
check digits, acknowledges a document upload, and offers to add a CNPJ
("sim") or finish ("não"). Each chat's progress is kept in two in-memory
maps, `userStates` and `userData`, keyed by chat id. A `try`/`catch` around
the handler removes the chat's entries when any awaited call fails.

The project has four modules:

- `Wrappers`: `Option`.
- `JsText`: the JavaScript built-ins the handler relies on. These are the
  `\s` character class, `parseInt` (leading white space, sign, `0x` prefix,
  longest digit run, `NaN`), `toUpperCase`/`toLowerCase` and decimal
  rendering of a number.
- `Validators`: `isValidEmail` (its regular expression as an explicit
  match), `isValidCPF` and `isValidCNPJ`. The last two are methods with the
  source's loops, proved equal to specification predicates over the
  stripped digits.
- `Registration`: the handler.
  - `Handle` says what one event does to one chat's state and record when
    every awaited call resolves: the calls made, in order, and the session
    afterwards.
  - `Resolve` adds the `catch` block. `Next` lifts both to a session that
    may be absent. `Replay`/`Trace` run a sequence of events.
  - Class `Bot` holds the two maps as `map` fields. `OnMessage` is the
    handler written step by step over them, one method per `case` of the
    switch. It is proved to follow `Next` for its chat, to keep every
    session's record consistent with its state, and to leave every other
    chat's entries alone.

Outside effects are parameters of an event:

- The random draw is an integer `Draw` in `[0, 900000)`. The code is
  `100000 + draw`, which is what `Math.floor(100000 + Math.random() * 900000)`
  produces.
- The bcrypt hash is a string.
- Which awaited call rejects is an `Outcome`: `Completed`, or `Rejected(at)`
  naming the index of the failing call.
- The collaborators (Telegram's `sendMessage`, `sendVerificationEmail`,
  `bcrypt.hash`, `saveToDatabase`) appear as `Call` values in the order the
  handler awaits them. `saveToDatabase` catches its own errors
  (bot.ts:245-254), so it never rejects.

What the code does, where the code itself points elsewhere. It keeps a
`SENHA` case that hashes a password and saves the record, declares
`documentPath` and `documentValidated` fields, and at bot.ts:155 leaves a
comment that the data could be saved after "não":

- No branch ever assigns `SENHA`, so the password step, bcrypt and
  `saveToDatabase` are unreachable. "não" in `ADD_CNPJ_LATER` thanks the
  user and removes the session without saving anything.
  `SenhaUnreachable` and `NeverPersisted` state this for every sequence of
  events.
- `DOCUMENT_UPLOAD` accepts any message and stores nothing: no document
  path and no validation flag.
- `isValidCNPJ` starts the first check digit's weights at
  `cnpj.length - 7`, which is 7 for 14 digits. The usual weights start at 5.
  So the published example 11.222.333/0001-81 is rejected
  (`CnpjStandardReferenceRejected`), although its check digits are correct
  under the usual weights (`CnpjStandardReference`), and 11.222.333/0001-14 is accepted
  (`CnpjReference`). The second check digit's weights (from 6) are the
  usual ones. The model follows the code.
- `isValidCNPJ` has no test for all digits being equal, unlike `isValidCPF`.
- `isValidCPF` computes `11 - sum % 11` and maps 10 or more to 0. That is
  the same digit as "0 when the remainder is below 2, else 11 minus the
  remainder", as `CpfCheckDigit`'s contract states.

## Model

| member | source | states |
|---|---|---|
| Validators.IsValidEmail | bot.ts:195-198 | Its definition is the expression as a match: the input splits as local "@" domain "." suffix, with all three parts non-empty and free of white space and "@". |
| Validators.EmailCharacterization | bot.ts:195-198 | The email expression matches exactly the strings with no white space, exactly one "@", a non-empty part before it and a dot after it that is neither the first nor the last character of the domain. |
| Validators.EmailAccepted | bot.ts:195-198 | "a@b.co" is accepted. |
| Validators.EmailWithoutDotRejected | bot.ts:195-198 | "a@b" is rejected. |
| Validators.EmailWithSpaceRejected | bot.ts:195-198 | "a b@c.com" is rejected. |
| Validators.DigitsOnly | bot.ts:201 | Its definition keeps the ASCII decimal digits of the input, in order, and drops everything else, as `replace(/[^\d]+/g, '')` does. |
| Validators.DigitsOnlySpec | bot.ts:201 | Stripping non-digits leaves only decimal digits and never lengthens the input. |
| Validators.DigitsOnlyOfDigits | bot.ts:201 | A string of digits is left unchanged by stripping. |
| Validators.DigitsOnlyConcat | bot.ts:201 | Stripping distributes over concatenation. |
| Validators.CpfCheckDigit | bot.ts:208-209 | The CPF check digit is in 0..9: 0 when the sum's remainder mod 11 is below 2, otherwise 11 minus that remainder. |
| Validators.IsValidCpf | bot.ts:200-219 | The two accumulating loops return true exactly when the stripped input has 11 digits, not all equal, and digits 10 and 11 are the check digits under weights 10..2 and 11..2. |
| Validators.CpfLastDigitMatters | bot.ts:218 | Replacing the last digit of an accepted CPF by any other digit makes it rejected. |
| Validators.FormattingIgnored | bot.ts:200-243 | Separators without digits ("529.982.247-25") change neither the CPF nor the CNPJ verdict. |
| Validators.DigitStringChecked | bot.ts:200-243 | A string of digits is judged by the digit-level CPF and CNPJ checks directly. |
| Validators.CpfReference | bot.ts:200-219 | 529.982.247-25 is a valid CPF. |
| Validators.CpfFlippedRejected | bot.ts:218 | 529.982.247-26 is rejected. |
| Validators.CpfAllSameRejected | bot.ts:202 | "11111111111" is rejected although its check digits match. |
| Validators.CpfShortRejected | bot.ts:202 | Ten digits are rejected. |
| Validators.CnpjCheckDigit | bot.ts:231-232 | The CNPJ check digit is in 0..9: 0 when the remainder is below 2, otherwise 11 minus it. |
| Validators.IsValidCnpj | bot.ts:221-243 | The two loops with the post-decremented, wrapping `pos` return true exactly when the stripped input has 14 digits and digits 13 and 14 are the check digits under weights 7,6,5,4,3,2,9,8,7,6,5,4 and 6,5,4,3,2,9,8,7,6,5,4,3,2. |
| Validators.CnpjLastDigitMatters | bot.ts:242 | Replacing the last digit of an accepted CNPJ by any other digit makes it rejected. |
| Validators.CnpjReference | bot.ts:221-243 | 11.222.333/0001-14 is accepted under the code's weights. |
| Validators.CnpjStandardReference | bot.ts:226-242 | Under the usual weights (the first starting at 5), 11.222.333/0001-81 has correct check digits: sums 102 and 120, digits 8 and 1. |
| Validators.CnpjStandardReferenceRejected | bot.ts:226-232 | 11.222.333/0001-81 is rejected by the code, because its first weight is 7: the first sum is 98, giving 1, not 8. |
| Validators.CnpjFlippedRejected | bot.ts:242 | 11.222.333/0001-15 is rejected. |
| Validators.CnpjWrongLength | bot.ts:223 | Thirteen and fifteen digits are rejected. |
| JsText.TrimStartSpec | bot.ts:106 | `parseInt`'s leading white-space skip removes a white-space prefix and stops at the first other character. |
| JsText.DigitRunSpec | bot.ts:106 | The digit run `parseInt` reads is a prefix of its input made of digits of the radix, ended by the end of input or a non-digit. |
| JsText.ParseInt | bot.ts:106 | Its definition is `parseInt` without a radix: skip leading white space, take one optional sign, read hexadecimal after "0x"/"0X" and decimal otherwise, stop at the first non-digit, and give NaN (None) when no digit was read. |
| JsText.DecimalDigits | bot.ts:96-97 | The decimal rendering of a number is a non-empty string of digits. |
| JsText.DecimalValue | bot.ts:96-97 | Reading a number's decimal rendering back gives the number. |
| JsText.ParseIntDecimal | bot.ts:106 | `parseInt` of a number's decimal rendering is that number. |
| JsText.ParseIntDigits | bot.ts:106 | `parseInt` of a non-empty string of decimal digits is its decimal value. |
| JsText.ParseIntZeros | bot.ts:106 | `parseInt("000000")` is 0. |
| JsText.ToUpper | bot.ts:115-118 | Its definition upper-cases each character of the reply: a-z and the Latin-1 small letters; the length is kept. |
| JsText.ToLower | bot.ts:150-153 | Its definition lower-cases each character of the reply: A-Z and the Latin-1 capital letters; the length is kept. |
| Registration.CodeMatches | bot.ts:106 | Its definition is `parseInt(text) === codigoConfirmacao`: NaN equals nothing, and an unset code equals no number. |
| Registration.Lookup | bot.ts:77-78 | Its definition reads a missing entry as NONE with the empty record `{}`. |
| Registration.Handle | bot.ts:81-176 | Its definition is the switch: for each state, the calls awaited in order and the state and record it leaves when all of them resolve. |
| Registration.Resolve | bot.ts:177-181 | Its definition is the catch block: when the call at the failing index can reject, the calls stop after it, the generic error is sent and the session is removed. |
| Registration.Bot.constructor | bot.ts:44-45 | Both maps start empty, and every session invariant holds. |
| Registration.Bot.ResetUser | bot.ts:190-193 | The chat's entries are deleted from both maps and nothing else changes. |
| Registration.Bot.OnMessage | bot.ts:73-182 | The handler's calls and the chat's new entries are exactly those of `Next` on the chat's old entries. Every session's record stays consistent with its state. No other chat's entry changes. |
| Registration.Bot.Dispatch | bot.ts:81-176 | The switch runs the case of the chat's current state. It makes `Handle`'s calls up to the one that throws and, when nothing throws, leaves the entries `Handle` describes. |
| Registration.Bot.Start | bot.ts:82-85 | NONE: welcome, then NOME. When the send throws, both maps are unchanged. |
| Registration.Bot.TakeName | bot.ts:87-91 | NOME: the name is stored, the prompt sent, then EMAIL. When the prompt's send throws, the name is already stored and the state is still NOME. |
| Registration.Bot.TakeEmail | bot.ts:93-103 | EMAIL: a valid email and the code are stored, the mail and then the prompt are sent, then EMAIL_VERIFICACAO. Otherwise a re-prompt. When the mail or a send throws, the email and code are already stored for a valid email (the record is unchanged otherwise) and the state is still EMAIL. |
| Registration.Bot.TakeCode | bot.ts:105-112 | EMAIL_VERIFICACAO: DOCUMENT_TYPE when `parseInt` of the reply equals the stored code. Otherwise a re-prompt. When the send throws, both maps are unchanged. |
| Registration.Bot.TakeDocumentType | bot.ts:114-122 | DOCUMENT_TYPE: the upper-cased choice is stored and the state moves to CPF or CNPJ. Otherwise a re-prompt. When the send throws, the choice is already stored and the state unchanged. |
| Registration.Bot.TakeCpf | bot.ts:124-132 | CPF: a valid CPF is stored, then DOCUMENT_UPLOAD. Otherwise a re-prompt. When the send throws, a valid CPF is already stored and the state unchanged. |
| Registration.Bot.TakeCnpj | bot.ts:134-142 | CNPJ: a valid CNPJ is stored, then DOCUMENT_UPLOAD. Otherwise a re-prompt. When the send throws, a valid CNPJ is already stored and the state unchanged. |
| Registration.Bot.TakeDocument | bot.ts:144-147 | DOCUMENT_UPLOAD: acknowledge and move to ADD_CNPJ_LATER, storing nothing. When the send throws, both maps are unchanged. |
| Registration.Bot.TakeMoreCnpj | bot.ts:149-160 | ADD_CNPJ_LATER: "sim" leads to CNPJ. "não" thanks the user and removes the session. Anything else gets a re-prompt. When the send throws, both maps are unchanged. |
| Registration.Bot.TakePassword | bot.ts:162-175 | SENHA: hash, save the record with the hash, confirm and remove the session, in that order. When the hash rejects, nothing is stored. When the confirmation's send throws, the hash is already stored and the state is still SENHA. |
| Registration.MessageStep | bot.ts:73-182 | Default entries, one switch step and the catch block together give `Next`, keep every session consistent and touch no other chat. |
| Registration.KeepsValid | bot.ts:44-45 | Changing one chat's entries to a consistent session keeps all sessions consistent. |
| Registration.NextSessionOk | bot.ts:73-182 | An event keeps a consistent session consistent. |
| Registration.HandleKeepsCollected | bot.ts:81-176 | Every completed step leaves the record holding what the new state requires: the earlier steps' validated fields, a six-digit code, no password or document fields. |
| Registration.NextKeepsSessionOk | bot.ts:73-182 | An event, failing or not, keeps a session's record consistent with its state. |
| Registration.ReplayKeepsSessionOk | bot.ts:73-182 | Any sequence of events keeps a session's record consistent with its state. |
| Registration.SenhaUnreachable | bot.ts:81-176 | From a fresh chat, no sequence of events reaches SENHA. |
| Registration.HandleUnpersisted | bot.ts:81-160 | Outside SENHA a step neither hashes a password nor saves. |
| Registration.ResolveUnpersisted | bot.ts:177-181 | The catch block adds no hashing and no saving. |
| Registration.NextUnpersisted | bot.ts:73-182 | An event on a consistent session neither hashes nor saves. |
| Registration.TraceUnpersisted | bot.ts:73-182 | A sequence of events on a consistent session never hashes or saves. |
| Registration.NeverPersisted | bot.ts:149-175 | No sequence of events from a fresh chat calls bcrypt or `saveToDatabase`: "não" ends without saving. |
| Registration.NextFollowsChain | bot.ts:80-181 | An event moves a session only to a successor in the fixed chain, never to SENHA. The session is removed exactly when one of the calls the step makes rejects, on "não" (in any case) in ADD_CNPJ_LATER, or in SENHA. |
| Registration.InvalidReplyKeepsSession | bot.ts:93-160 | In the six checking states the session is unchanged exactly when the reply is rejected, and then one re-prompt is the only call. |
| Registration.EmailStoresCode | bot.ts:94-99 | A valid email is stored with a code in [100000, 999999]. That code is mailed to it, then the prompt, then EMAIL_VERIFICACAO; nothing else changes. |
| Registration.CodeStep | bot.ts:106-111 | The code step advances to DOCUMENT_TYPE exactly when `parseInt` of the reply is a number equal to the stored code, and otherwise stays with the record unchanged. |
| Registration.TypedCode | bot.ts:106-111 | Typing the stored code in decimal advances. "000000" never does. |
| Registration.DocumentChoice | bot.ts:115-118 | "cpf" in any case leads to CPF, and "cnpj" in any case to CNPJ. The upper-cased choice is recorded and the matching prompt sent. |
| Registration.UploadStoresNothing | bot.ts:144-147 | Any message in DOCUMENT_UPLOAD moves to ADD_CNPJ_LATER with the record unchanged. |
| Registration.SimKeepsData | bot.ts:150-152 | "sim" in any case moves to CNPJ with every collected field kept. |
| Registration.NaoEndsSession | bot.ts:153-156 | "não" sends one message and removes the session without hashing or saving. |
| Registration.FreshStart | bot.ts:77-85 | A chat without entries starts in NONE with an empty record: whatever it sends, it is welcomed and moves to NOME. |
| Registration.CaughtErrorResets | bot.ts:177-181 | When an awaited call rejects, the calls up to it are made, the generic error is sent and both entries are deleted. An outcome naming no rejectable call changes nothing. |
| Registration.OneReplyPerEvent | bot.ts:80-181 | Every event ends with a message to the user. An earlier message exists only if its send was the call that failed. |
| Registration.RepliesFolded | bot.ts:115-153 | "cpf" upper-cases to "CPF"; "não" lower-cases to itself. |
| Registration.StepsWithCpf | bot.ts:73-182 | A whole CPF registration, for any name, valid email, draw, valid CPF and upload. Each reply moves the session one step along the chain, adding exactly that step's field, and the final "não" removes it. |

## Left out

- `mail.ts` (how the verification email is built and sent) is not part of this model. The mail is a `SendVerificationEmail(address, code)` call that may reject.
- The Telegram client is a `SendMessage` call that may reject. The chat id and the text are inputs. A message without text (a photo) is modelled by its `msg.text || ''` value, the empty string.
- `saveToDatabase`'s SQL and connection pool are not modelled. It appears as a `SaveToDatabase(row)` call with the columns it inserts, and it never rejects because it catches its own errors.
- bcrypt is not modelled: the hash is a parameter of the event.
- `cleanupOldFiles` and its `setInterval` schedule (bot.ts:47-71), and the creation of the uploads directory (bot.ts:14-17), are file-system housekeeping outside the conversation.
- `validateDocument` (bot.ts:184-188) is never called by the handler.
- Concurrency: events of one chat are handled one at a time to completion. The interleaving of two events of the same chat at their `await` points is not modelled.
- `console.error` logging in the catch block is not modelled.
- The catch block's own `sendMessage` rejecting (bot.ts:179) would leave the entries in place and reject the handler's promise. The model takes that send to resolve.
- `Math.random` is an integer draw in `[0, 900000)`. The float arithmetic of `Math.floor(100000 + Math.random() * 900000)` is not modelled.
- JsText.ParseInt: returns the exact integer value of the digit run. The rounding of very long digit runs to the nearest double is not modelled; no code has more than six digits.
- JsText.ToUpper, JsText.ToLower: map a-z, A-Z and the Latin-1 letters whose other case is also in Latin-1 (U+00C0-U+00DE and U+00E0-U+00FE). Other Unicode case mappings, such as "ÿ" to "Ÿ" or the expansion of "ß" to "SS", are not modelled.
- The concrete CPF and CNPJ examples are stated on strings of digits. `DigitStringChecked` and `FormattingIgnored` carry them to `CpfValid`/`CnpjValid` and formatted input.
