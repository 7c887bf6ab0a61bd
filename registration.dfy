/** The registration conversation of bot.ts: the per-chat maps `userStates`
    and `userData`, the `message` handler that dispatches on a chat's state,
    and `resetUser`.

    `Handle` states what one event does to one chat's session when every
    collaborator call resolves; `Resolve` adds the `catch` block; `Next`
    lifts both to a session that may be absent; `Bot.OnMessage` is the
    handler itself, written step by step over the two maps, and is proved
    to do what `Next` says for its chat and nothing to any other chat. */
module Registration {
  import opened Wrappers
  import opened JsText
  import opened Validators

  /** The `State` enum; `Idle` is the source's `State.NONE`. */
  datatype State =
    | Idle | Nome | Email | EmailVerificacao | DocumentType
    | Cpf | Cnpj | DocumentUpload | Senha | AddCnpjLater

  /** The `UserData` record; every property is optional. */
  datatype UserData = UserData(
    nome: Option<string>,
    email: Option<string>,
    documentType: Option<string>,
    cpf: Option<string>,
    cnpj: Option<string>,
    senha: Option<string>,
    codigoConfirmacao: Option<int>,
    documentValidated: Option<bool>,
    documentPath: Option<string>)

  /** `{}`: a record with nothing set. */
  const NoData := UserData(None, None, None, None, None, None, None, None, None)

  /** The messages the bot sends. */
  datatype Message =
    | Welcome | AskEmail | CodeSent | InvalidEmail | EmailConfirmed | WrongCode
    | AskId(kind: string) | InvalidDocumentType | CpfAccepted | InvalidCpf
    | CnpjAccepted | InvalidCnpj | DocumentReceived | AskCnpj
    | RegistrationComplete | InvalidYesNo | Registered | GenericError

  function Text(m: Message): string {
    match m
    case Welcome => "Bem-vindo ao cadastro! Qual é o seu nome?"
    case AskEmail => "Por favor, informe o seu e-mail:"
    case CodeSent => "Código de confirmação enviado para o seu e-mail. Por favor, digite o código recebido:"
    case InvalidEmail => "E-mail inválido. Tente novamente."
    case EmailConfirmed => "E-mail confirmado! Você deseja cadastrar como CPF ou CNPJ? Responda com \"CPF\" ou \"CNPJ\":"
    case WrongCode => "Código incorreto. Por favor, tente novamente."
    case AskId(kind) => "Informe o seu " + kind + " (apenas números):"
    case InvalidDocumentType => "Opção inválida. Por favor, responda com \"CPF\" ou \"CNPJ\":"
    case CpfAccepted => "CPF válido! Agora, envie uma foto ou imagem do seu documento para validação:"
    case InvalidCpf => "CPF inválido. Por favor, digite um CPF válido (apenas números):"
    case CnpjAccepted => "CNPJ válido! Agora, envie uma foto ou imagem do seu documento para validação:"
    case InvalidCnpj => "CNPJ inválido. Por favor, digite um CNPJ válido (apenas números):"
    case DocumentReceived => "Documento recebido! Agora, você deseja adicionar um CNPJ ao seu cadastro? Responda com \"sim\" para adicionar ou \"não\" para finalizar:"
    case AskCnpj => "Agora, por favor, informe o seu CNPJ (apenas números):"
    case RegistrationComplete => "Cadastro concluído! Obrigado por se cadastrar."
    case InvalidYesNo => "Opção inválida. Por favor, responda com \"sim\" ou \"não\":"
    case Registered => "Cadastro realizado com sucesso!"
    case GenericError => "Ocorreu um erro. Tente novamente."
  }

  /** The columns `saveToDatabase` inserts. */
  datatype Row = Row(
    nome: Option<string>, email: Option<string>, cpf: Option<string>, cnpj: Option<string>,
    senha: Option<string>, documentPath: Option<string>, documentValidated: Option<bool>)

  function RowOf(d: UserData): Row {
    Row(d.nome, d.email, d.cpf, d.cnpj, d.senha, d.documentPath, d.documentValidated)
  }

  /** A call into a collaborator, awaited by the handler. */
  datatype Call =
    | SendMessage(message: Message)
    | SendVerificationEmail(address: string, code: int)
    | HashPassword(password: string, saltRounds: int)
    | SaveToDatabase(row: Row)

  /** `saveToDatabase` catches its own errors, so it never rejects; every
      other call may. */
  predicate Rejectable(c: Call) {
    !c.SaveToDatabase?
  }

  /** How the collaborator calls of one event settle: all resolve, or the
      call at index `at` of the event's calls rejects (an index past the
      last call, or one naming `saveToDatabase`, rejects nothing). */
  datatype Outcome = Completed | Rejected(at: nat)

  /** What `Math.random() * 900000` floors to. */
  type Draw = r: int | 0 <= r < 900000

  /** The session of a chat after an event: kept with a new state and
      record, or removed by `resetUser`. */
  datatype After = Continue(state: State, data: UserData) | Reset

  datatype Transition = Transition(calls: seq<Call>, after: After)

  /** `parseInt(text) === codigoConfirmacao`: NaN and an unset code never
      compare equal. */
  predicate CodeMatches(text: string, stored: Option<int>) {
    match ParseInt(text)
    case Some(n) => stored == Some(n)
    case None => false
  }

  /** One event for a chat in state `st` with record `d`, when every call
      resolves: the calls made, in order, and the session afterwards. */
  function Handle(st: State, d: UserData, text: string, code: int, hash: string): Transition {
    match st
    case Idle => Transition([SendMessage(Welcome)], Continue(Nome, d))
    case Nome => Transition([SendMessage(AskEmail)], Continue(Email, d.(nome := Some(text))))
    case Email =>
      if IsValidEmail(text) then
        Transition([SendVerificationEmail(text, code), SendMessage(CodeSent)],
          Continue(EmailVerificacao, d.(email := Some(text), codigoConfirmacao := Some(code))))
      else Transition([SendMessage(InvalidEmail)], Continue(Email, d))
    case EmailVerificacao =>
      if CodeMatches(text, d.codigoConfirmacao) then
        Transition([SendMessage(EmailConfirmed)], Continue(DocumentType, d))
      else Transition([SendMessage(WrongCode)], Continue(EmailVerificacao, d))
    case DocumentType =>
      var kind := ToUpper(text);
      if kind == "CPF" || kind == "CNPJ" then
        Transition([SendMessage(AskId(kind))],
          Continue(if kind == "CPF" then Cpf else Cnpj, d.(documentType := Some(kind))))
      else Transition([SendMessage(InvalidDocumentType)], Continue(DocumentType, d))
    case Cpf =>
      if CpfValid(text) then
        Transition([SendMessage(CpfAccepted)], Continue(DocumentUpload, d.(cpf := Some(text))))
      else Transition([SendMessage(InvalidCpf)], Continue(Cpf, d))
    case Cnpj =>
      if CnpjValid(text) then
        Transition([SendMessage(CnpjAccepted)], Continue(DocumentUpload, d.(cnpj := Some(text))))
      else Transition([SendMessage(InvalidCnpj)], Continue(Cnpj, d))
    case DocumentUpload => Transition([SendMessage(DocumentReceived)], Continue(AddCnpjLater, d))
    case AddCnpjLater =>
      var answer := ToLower(text);
      if answer == "sim" then Transition([SendMessage(AskCnpj)], Continue(Cnpj, d))
      else if answer == "não" then Transition([SendMessage(RegistrationComplete)], Reset)
      else Transition([SendMessage(InvalidYesNo)], Continue(AddCnpjLater, d))
    case Senha =>
      Transition([HashPassword(text, 10), SaveToDatabase(RowOf(d.(senha := Some(hash)))),
                  SendMessage(Registered)], Reset)
  }

  /** The `catch` block: when a call rejects, the calls after it are not
      made, the generic error is sent and the session is removed. */
  function Resolve(t: Transition, outcome: Outcome): Transition {
    match outcome
    case Completed => t
    case Rejected(at) =>
      if at < |t.calls| && Rejectable(t.calls[at])
      then Transition(t.calls[..at + 1] + [SendMessage(GenericError)], Reset)
      else t
  }

  /** One chat's entries in the two maps: both present or both absent. */
  datatype Session = Absent | Present(state: State, data: UserData)

  /** An incoming message with what its handling draws from outside: the
      random draw, the password hash and how the collaborator calls settle.
      A message without text (a photo) has text "". */
  datatype Event = Event(text: string, draw: Draw, hash: string, outcome: Outcome)

  /** Lines 77-78: an absent entry starts as `State.NONE` and `{}`. */
  function Lookup(s: Session): (State, UserData) {
    match s
    case Absent => (Idle, NoData)
    case Present(st, d) => (st, d)
  }

  function Next(s: Session, e: Event): (Session, seq<Call>) {
    var (st, d) := Lookup(s);
    Settle(Resolve(Handle(st, d, e.text, 100000 + e.draw, e.hash), e.outcome))
  }

  /** The chat's session after a transition, and the calls it made. */
  function Settle(t: Transition): (Session, seq<Call>) {
    match t.after
    case Continue(st', d') => (Present(st', d'), t.calls)
    case Reset => (Absent, t.calls)
  }

  /** The session a chat reaches through a sequence of events. */
  function Replay(s: Session, es: seq<Event>): Session
    decreases |es|
  {
    if es == [] then s else Replay(Next(s, es[0]).0, es[1..])
  }

  /** Every call the handler makes while processing the events. */
  function Trace(s: Session, es: seq<Event>): seq<Call>
    decreases |es|
  {
    if es == [] then [] else Next(s, es[0]).1 + Trace(Next(s, es[0]).0, es[1..])
  }

  // ---------------------------------------------------------------------
  // What a session has collected at each point of the chain
  // ---------------------------------------------------------------------

  /** Name, a valid email and a six-digit code are on record. */
  predicate Verified(d: UserData) {
    && d.nome.Some?
    && d.email.Some? && IsValidEmail(d.email.value)
    && d.codigoConfirmacao.Some? && 100000 <= d.codigoConfirmacao.value <= 999999
  }

  /** The record a session in state `st` holds: each state has every field
      the earlier steps validate, no password, document path or document
      flag is ever set, and a stored CPF or CNPJ passed its check. There is
      no record for SENHA: no session is ever in it. */
  predicate Collected(st: State, d: UserData) {
    && d.senha.None? && d.documentPath.None? && d.documentValidated.None?
    && (d.cpf.Some? ==> CpfValid(d.cpf.value))
    && (d.cnpj.Some? ==> CnpjValid(d.cnpj.value))
    && match st
       case Idle => d == NoData
       case Nome => d == NoData
       case Email => d.nome.Some? && d == NoData.(nome := d.nome)
       case EmailVerificacao => Verified(d) && d.documentType.None? && d.cpf.None? && d.cnpj.None?
       case DocumentType => Verified(d) && d.documentType.None? && d.cpf.None? && d.cnpj.None?
       case Cpf => Verified(d) && d.documentType == Some("CPF") && d.cpf.None? && d.cnpj.None?
       case Cnpj =>
         && Verified(d)
         && (d.documentType == Some("CNPJ") || (d.documentType == Some("CPF") && d.cpf.Some?))
       case DocumentUpload => Verified(d) && IdCollected(d)
       case AddCnpjLater => Verified(d) && IdCollected(d)
       case Senha => false
  }

  /** The identifier of the chosen document type is on record. */
  predicate IdCollected(d: UserData) {
    || (d.documentType == Some("CPF") && d.cpf.Some?)
    || (d.documentType == Some("CNPJ") && d.cnpj.Some?)
  }

  predicate SessionOk(s: Session) {
    s.Present? ==> Collected(s.state, s.data)
  }

  /** Every completed step keeps the record right for the state it moves to. */
  lemma HandleKeepsCollected(st: State, d: UserData, text: string, code: int, hash: string)
    requires Collected(st, d) && 100000 <= code <= 999999
    ensures var t := Handle(st, d, text, code, hash);
            t.after.Continue? ==> Collected(t.after.state, t.after.data)
  {
  }

  lemma NextKeepsSessionOk(s: Session, e: Event)
    requires SessionOk(s)
    ensures SessionOk(Next(s, e).0)
  {
    var (st, d) := Lookup(s);
    HandleKeepsCollected(st, d, e.text, 100000 + e.draw, e.hash);
  }

  lemma {:induction false} ReplayKeepsSessionOk(s: Session, es: seq<Event>)
    requires SessionOk(s)
    ensures SessionOk(Replay(s, es))
    decreases |es|
  {
    if es != [] {
      NextKeepsSessionOk(s, es[0]);
      ReplayKeepsSessionOk(Next(s, es[0]).0, es[1..]);
    }
  }

  /** No branch assigns SENHA: from a fresh chat, no sequence of events
      reaches it. */
  lemma SenhaUnreachable(es: seq<Event>)
    ensures Replay(Absent, es).Present? ==> Replay(Absent, es).state != Senha
  {
    ReplayKeepsSessionOk(Absent, es);
  }

  /** Neither bcrypt nor saveToDatabase is called. */
  predicate Unpersisted(calls: seq<Call>) {
    forall k | 0 <= k < |calls| :: !calls[k].SaveToDatabase? && !calls[k].HashPassword?
  }

  /** Outside SENHA a handler only sends messages and mails. */
  lemma HandleUnpersisted(st: State, d: UserData, text: string, code: int, hash: string)
    requires st != Senha
    ensures Unpersisted(Handle(st, d, text, code, hash).calls)
  {
    match st {
      case Idle =>
      case Nome =>
      case Email =>
      case EmailVerificacao =>
      case DocumentType =>
      case Cpf =>
      case Cnpj =>
      case DocumentUpload =>
      case AddCnpjLater =>
    }
  }

  /** The catch block adds only the generic error message. */
  lemma ResolveUnpersisted(t: Transition, outcome: Outcome)
    requires Unpersisted(t.calls)
    ensures Unpersisted(Resolve(t, outcome).calls)
  {
    var r := Resolve(t, outcome);
    if r != t {
      var at := outcome.at;
      forall k | 0 <= k < |r.calls|
        ensures !r.calls[k].SaveToDatabase? && !r.calls[k].HashPassword?
      {
        if k <= at {
          assert r.calls[k] == t.calls[k];
        }
      }
    }
  }

  lemma NextUnpersisted(s: Session, e: Event)
    requires SessionOk(s)
    ensures Unpersisted(Next(s, e).1)
  {
    var (st, d) := Lookup(s);
    var t := Handle(st, d, e.text, 100000 + e.draw, e.hash);
    HandleUnpersisted(st, d, e.text, 100000 + e.draw, e.hash);
    ResolveUnpersisted(t, e.outcome);
    assert Next(s, e).1 == Resolve(t, e.outcome).calls;
  }

  lemma {:induction false} TraceUnpersisted(s: Session, es: seq<Event>)
    requires SessionOk(s)
    ensures Unpersisted(Trace(s, es))
    decreases |es|
  {
    if es != [] {
      var (s', calls) := Next(s, es[0]);
      NextKeepsSessionOk(s, es[0]);
      NextUnpersisted(s, es[0]);
      TraceUnpersisted(s', es[1..]);
      var rest := Trace(s', es[1..]);
      assert Trace(s, es) == calls + rest;
      forall k | 0 <= k < |calls + rest|
        ensures !(calls + rest)[k].SaveToDatabase? && !(calls + rest)[k].HashPassword?
      {
        if k < |calls| {
          assert (calls + rest)[k] == calls[k];
        } else {
          assert (calls + rest)[k] == rest[k - |calls|];
        }
      }
    }
  }

  /** Since only the unreachable SENHA branch calls saveToDatabase, no
      registration is ever persisted, whatever the chat sends. */
  lemma NeverPersisted(es: seq<Event>)
    ensures Unpersisted(Trace(Absent, es))
  {
    TraceUnpersisted(Absent, es);
  }

  // ---------------------------------------------------------------------
  // The transition chain
  // ---------------------------------------------------------------------

  /** The states a completed event can move a session to. */
  function Successors(st: State): set<State> {
    match st
    case Idle => {Nome}
    case Nome => {Email}
    case Email => {Email, EmailVerificacao}
    case EmailVerificacao => {EmailVerificacao, DocumentType}
    case DocumentType => {DocumentType, Cpf, Cnpj}
    case Cpf => {Cpf, DocumentUpload}
    case Cnpj => {Cnpj, DocumentUpload}
    case DocumentUpload => {AddCnpjLater}
    case AddCnpjLater => {AddCnpjLater, Cnpj}
    case Senha => {}
  }

  /** Each event moves along the chain, or removes the session: exactly
      when one of its calls rejects, on "não" in ADD_CNPJ_LATER, or in
      SENHA. SENHA is nobody's successor. */
  lemma NextFollowsChain(s: Session, e: Event)
    ensures var (st, d) := Lookup(s);
            var t := Handle(st, d, e.text, 100000 + e.draw, e.hash);
            && (Next(s, e).0.Present? ==> Next(s, e).0.state in Successors(st) && Next(s, e).0.state != Senha)
            && (Next(s, e).0 == Absent <==>
                  || (e.outcome.Rejected? && e.outcome.at < |t.calls| && Rejectable(t.calls[e.outcome.at]))
                  || (st == AddCnpjLater && ToLower(e.text) == "não")
                  || st == Senha)
  {
  }

  /** Whether a reply is one the state's check accepts. */
  predicate Accepted(st: State, d: UserData, text: string) {
    match st
    case Email => IsValidEmail(text)
    case EmailVerificacao => CodeMatches(text, d.codigoConfirmacao)
    case DocumentType => ToUpper(text) == "CPF" || ToUpper(text) == "CNPJ"
    case Cpf => CpfValid(text)
    case Cnpj => CnpjValid(text)
    case AddCnpjLater => ToLower(text) == "sim" || ToLower(text) == "não"
    case _ => true
  }

  /** The re-prompt of each state that checks its reply. */
  function Reprompt(st: State): Message {
    match st
    case Email => InvalidEmail
    case EmailVerificacao => WrongCode
    case DocumentType => InvalidDocumentType
    case Cpf => InvalidCpf
    case Cnpj => InvalidCnpj
    case _ => InvalidYesNo
  }

  /** In a state that checks its reply, a completed event leaves the
      session exactly as it was precisely when the reply is rejected, and
      then one re-prompt is the only call. */
  lemma InvalidReplyKeepsSession(st: State, d: UserData, e: Event)
    requires st in {Email, EmailVerificacao, DocumentType, Cpf, Cnpj, AddCnpjLater}
    requires e.outcome == Completed
    ensures Next(Present(st, d), e).0 == Present(st, d) <==> !Accepted(st, d, e.text)
    ensures !Accepted(st, d, e.text) ==> Next(Present(st, d), e).1 == [SendMessage(Reprompt(st))]
  {
  }

  /** A valid email is stored with a fresh six-digit code, which is mailed
      to it, and the session moves to EMAIL_VERIFICACAO. */
  lemma EmailStoresCode(d: UserData, e: Event)
    requires e.outcome == Completed && IsValidEmail(e.text)
    ensures var (s', calls) := Next(Present(Email, d), e);
            && s'.Present? && s'.state == EmailVerificacao
            && s'.data.email == Some(e.text)
            && s'.data.codigoConfirmacao.Some?
            && 100000 <= s'.data.codigoConfirmacao.value <= 999999
            && s'.data == d.(email := s'.data.email, codigoConfirmacao := s'.data.codigoConfirmacao)
            && calls == [SendVerificationEmail(e.text, s'.data.codigoConfirmacao.value), SendMessage(CodeSent)]
  {
  }

  /** The code step advances to DOCUMENT_TYPE exactly when parseInt of the
      reply equals the stored code. */
  lemma CodeStep(d: UserData, e: Event)
    requires e.outcome == Completed
    ensures Next(Present(EmailVerificacao, d), e).0 ==
            if ParseInt(e.text) != None && ParseInt(e.text) == d.codigoConfirmacao
            then Present(DocumentType, d) else Present(EmailVerificacao, d)
  {
    var t := Handle(EmailVerificacao, d, e.text, 100000 + e.draw, e.hash);
    match ParseInt(e.text)
    case None =>
      assert t.after == Continue(EmailVerificacao, d);
    case Some(n) =>
      assert t.after == if d.codigoConfirmacao == Some(n)
                        then Continue(DocumentType, d) else Continue(EmailVerificacao, d);
  }

  /** Typing the stored code advances; "000000" never does. */
  lemma TypedCode(d: UserData, e: Event, c: nat)
    requires e.outcome == Completed && d.codigoConfirmacao == Some(c)
    ensures e.text == Decimal(c) ==> Next(Present(EmailVerificacao, d), e).0 == Present(DocumentType, d)
    ensures e.text == "000000" && c >= 100000 ==>
            Next(Present(EmailVerificacao, d), e).0 == Present(EmailVerificacao, d)
  {
    ParseIntDecimal(c);
    ParseIntZeros();
    CodeStep(d, e);
  }

  /** Choosing the document type is case-insensitive and records the
      upper-cased choice. */
  lemma DocumentChoice(d: UserData, e: Event)
    requires e.outcome == Completed
    ensures ToUpper(e.text) == "CPF" ==>
            Next(Present(DocumentType, d), e) ==
            (Present(Cpf, d.(documentType := Some("CPF"))), [SendMessage(AskId("CPF"))])
    ensures ToUpper(e.text) == "CNPJ" ==>
            Next(Present(DocumentType, d), e) ==
            (Present(Cnpj, d.(documentType := Some("CNPJ"))), [SendMessage(AskId("CNPJ"))])
  {
  }

  /** The upload step stores nothing about the reply. */
  lemma UploadStoresNothing(d: UserData, e: Event)
    requires e.outcome == Completed
    ensures Next(Present(DocumentUpload, d), e) ==
            (Present(AddCnpjLater, d), [SendMessage(DocumentReceived)])
  {
  }

  /** "sim" asks for a CNPJ and keeps everything already collected. */
  lemma SimKeepsData(d: UserData, e: Event)
    requires e.outcome == Completed && ToLower(e.text) == "sim"
    ensures Next(Present(AddCnpjLater, d), e) == (Present(Cnpj, d), [SendMessage(AskCnpj)])
  {
  }

  /** "não" ends the registration with one message and removes the
      session; nothing is persisted. */
  lemma NaoEndsSession(d: UserData, e: Event)
    requires e.outcome == Completed && ToLower(e.text) == "não"
    ensures Next(Present(AddCnpjLater, d), e) == (Absent, [SendMessage(RegistrationComplete)])
    ensures Unpersisted(Next(Present(AddCnpjLater, d), e).1)
  {
  }

  /** A chat with no session, or one in NONE with nothing collected, is
      welcomed and asked for a name, whatever it sent. */
  lemma FreshStart(e: Event)
    requires e.outcome == Completed
    ensures Next(Absent, e) == (Present(Nome, NoData), [SendMessage(Welcome)])
    ensures Next(Present(Idle, NoData), e) == Next(Absent, e)
  {
  }

  /** A failing call is caught: the calls up to and including the failing
      one are made, the generic error is sent and the session is removed.
      A failure index that names no call that can fail changes nothing. */
  lemma CaughtErrorResets(s: Session, e: Event)
    requires e.outcome.Rejected?
    ensures var (s', calls) := Next(s, e);
            var (s0, calls0) := Next(s, e.(outcome := Completed));
            var at := e.outcome.at;
            if at < |calls0| && Rejectable(calls0[at])
            then s' == Absent && calls == calls0[..at + 1] + [SendMessage(GenericError)]
            else s' == s0 && calls == calls0
  {
  }

  /** Each event ends with one message to the user, and any earlier
      message is the one whose delivery failed. */
  lemma OneReplyPerEvent(s: Session, e: Event)
    ensures var calls := Next(s, e).1;
            && |calls| > 0 && calls[|calls| - 1].SendMessage?
            && forall k | 0 <= k < |calls| - 1 :: calls[k].SendMessage? ==> e.outcome == Rejected(k)
  {
  }

  /** A reply that every call it causes completes. */
  function Reply(text: string, draw: Draw): Event {
    Event(text, draw, "", Completed)
  }

  /** "cpf" upper-cases to "CPF", and "não" is already lower case. */
  lemma RepliesFolded()
    ensures ToUpper("cpf") == "CPF"
    ensures ToLower("não") == "não"
  {
  }

  /** A registration with a CPF, for any name, valid email, draw, valid
      CPF and upload: each reply moves the session one step along the
      chain and adds exactly what that step collects, and the final "não"
      removes the session (NeverPersisted: nothing is saved). */
  lemma StepsWithCpf(name: string, email: string, cpf: string, upload: string, r: Draw)
    requires IsValidEmail(email) && CpfValid(cpf)
    ensures var code := 100000 + r;
            var d1 := NoData.(nome := Some(name));
            var d2 := d1.(email := Some(email), codigoConfirmacao := Some(code));
            var d3 := d2.(documentType := Some("CPF"));
            var d4 := d3.(cpf := Some(cpf));
            && Next(Absent, Reply("oi", r)).0 == Present(Nome, NoData)
            && Next(Present(Nome, NoData), Reply(name, r)).0 == Present(Email, d1)
            && Next(Present(Email, d1), Reply(email, r)).0 == Present(EmailVerificacao, d2)
            && Next(Present(EmailVerificacao, d2), Reply(Decimal(code), r)).0 == Present(DocumentType, d2)
            && Next(Present(DocumentType, d2), Reply("cpf", r)).0 == Present(Cpf, d3)
            && Next(Present(Cpf, d3), Reply(cpf, r)).0 == Present(DocumentUpload, d4)
            && Next(Present(DocumentUpload, d4), Reply(upload, r)).0 == Present(AddCnpjLater, d4)
            && Next(Present(AddCnpjLater, d4), Reply("não", r)).0 == Absent
  {
    var code := 100000 + r;
    var d1 := NoData.(nome := Some(name));
    var d2 := d1.(email := Some(email), codigoConfirmacao := Some(code));
    var d3 := d2.(documentType := Some("CPF"));
    var d4 := d3.(cpf := Some(cpf));
    FreshStart(Reply("oi", r));
    EmailStoresCode(d1, Reply(email, r));
    TypedCode(d2, Reply(Decimal(code), r), code);
    RepliesFolded();
    DocumentChoice(d2, Reply("cpf", r));
    UploadStoresNothing(d4, Reply(upload, r));
    NaoEndsSession(d4, Reply("não", r));
  }

  // ---------------------------------------------------------------------
  // The handler over the two maps
  // ---------------------------------------------------------------------

  /** Whether the call just made fails under `outcome`. */
  predicate Throws(outcome: Outcome, calls: seq<Call>) {
    calls != [] && outcome == Rejected(|calls| - 1) && Rejectable(calls[|calls| - 1])
  }

  /** The calls a handler made before it returned or threw: all of
      `t.calls` when nothing failed, otherwise those up to and including
      the failing one. */
  predicate Made(t: Transition, outcome: Outcome, calls: seq<Call>, thrown: bool) {
    if thrown
    then outcome.Rejected? && outcome.at < |t.calls| && Rejectable(t.calls[outcome.at])
         && calls == t.calls[..outcome.at + 1]
    else calls == t.calls && !(outcome.Rejected? && outcome.at < |t.calls| && Rejectable(t.calls[outcome.at]))
  }

  /** What one pass through the switch did to the two maps: a handler that
      finished left the chat's entries as its transition says, one that
      threw may have changed them, and no other chat was touched. */
  ghost predicate Stepped(states0: map<int, State>, data0: map<int, UserData>,
                          states1: map<int, State>, data1: map<int, UserData>, chatId: int,
                          t: Transition, outcome: Outcome, calls: seq<Call>, thrown: bool)
  {
    && Made(t, outcome, calls, thrown)
    && states1 - {chatId} == states0 - {chatId}
    && data1 - {chatId} == data0 - {chatId}
    && (!thrown ==>
          match t.after
          case Continue(st', d') =>
            chatId in states1 && chatId in data1 && states1[chatId] == st' && data1[chatId] == d'
          case Reset => chatId !in states1 && chatId !in data1)
  }

  /** The chat's session as the two maps hold it. */
  function SessionIn(states: map<int, State>, data: map<int, UserData>, chatId: int): Session {
    if chatId in states && chatId in data then Present(states[chatId], data[chatId]) else Absent
  }

  /** Both maps have the same chats, and each session's record is the one
      its state collects (SENHA is admitted: the handler keeps a branch for
      it, and SenhaUnreachable shows no event sequence leads there). */
  ghost predicate SessionsOk(states: map<int, State>, data: map<int, UserData>) {
    && states.Keys == data.Keys
    && forall chatId | chatId in states :: states[chatId] == Senha || Collected(states[chatId], data[chatId])
  }

  /** One message from the old maps to the new ones: lines 77-78 fill in a
      missing entry, the switch steps as Handle says, and the catch block
      removes the chat on a failure. Together they follow Next, keep the
      maps valid and touch no other chat. */
  lemma MessageStep(states: map<int, State>, data: map<int, UserData>,
                    states0: map<int, State>, data0: map<int, UserData>,
                    states1: map<int, State>, data1: map<int, UserData>,
                    states2: map<int, State>, data2: map<int, UserData>,
                    chatId: int, e: Event, calls1: seq<Call>, thrown: bool, calls2: seq<Call>)
    requires SessionsOk(states, data)
    requires states0 == states[chatId := if chatId in states then states[chatId] else Idle]
    requires data0 == data[chatId := if chatId in data then data[chatId] else NoData]
    requires Stepped(states0, data0, states1, data1, chatId,
                     Handle(states0[chatId], data0[chatId], e.text, 100000 + e.draw, e.hash),
                     e.outcome, calls1, thrown)
    requires thrown ==> states2 == states1 - {chatId} && data2 == data1 - {chatId}
                        && calls2 == calls1 + [SendMessage(GenericError)]
    requires !thrown ==> states2 == states1 && data2 == data1 && calls2 == calls1
    ensures SessionsOk(states2, data2)
    ensures (SessionIn(states2, data2, chatId), calls2) == Next(SessionIn(states, data, chatId), e)
    ensures states2 - {chatId} == states - {chatId} && data2 - {chatId} == data - {chatId}
  {
    var s := SessionIn(states, data, chatId);
    assert Lookup(s) == (states0[chatId], data0[chatId]);
    var t := Handle(states0[chatId], data0[chatId], e.text, 100000 + e.draw, e.hash);
    assert Next(s, e) == Settle(Resolve(t, e.outcome));
    assert states1 - {chatId} == states0 - {chatId} == states - {chatId};
    assert data1 - {chatId} == data0 - {chatId} == data - {chatId};
    assert states2 - {chatId} == states - {chatId} by {
      if thrown {
        assert states2 - {chatId} == states1 - {chatId};
      }
    }
    assert data2 - {chatId} == data - {chatId} by {
      if thrown {
        assert data2 - {chatId} == data1 - {chatId};
      }
    }
    var next := Next(s, e);
    assert (SessionIn(states2, data2, chatId), calls2) == next;
    NextSessionOk(s, e);
    KeepsValid(states, data, states2, data2, chatId, next);
  }

  /** The bot's in-memory registration sessions, one entry per chat in
      each of the two maps. */
  class Bot {
    var userStates: map<int, State>
    var userData: map<int, UserData>

    ghost predicate Valid()
      reads this
    {
      SessionsOk(userStates, userData)
    }

    ghost function SessionOf(chatId: int): Session
      reads this
    {
      SessionIn(userStates, userData, chatId)
    }

    constructor ()
      ensures Valid()
      ensures userStates == map[] && userData == map[]
    {
      userStates := map[];
      userData := map[];
    }

    /** Forgets the chat's session in both maps. */
    method ResetUser(chatId: int)
      modifies this
      ensures userStates == old(userStates) - {chatId}
      ensures userData == old(userData) - {chatId}
    {
      userStates := userStates - {chatId};
      userData := userData - {chatId};
    }

    /** Handles one text message of a chat: the calls it makes, in order,
        and the chat's new session are those of Next, and no other chat's
        entries change. */
    method OnMessage(chatId: int, text: string, draw: Draw, hash: string, outcome: Outcome)
      returns (calls: seq<Call>)
      requires Valid()
      modifies this
      ensures Valid()
      ensures (SessionOf(chatId), calls) == Next(old(SessionOf(chatId)), Event(text, draw, hash, outcome))
      ensures userStates - {chatId} == old(userStates) - {chatId}
      ensures userData - {chatId} == old(userData) - {chatId}
    {
      userStates := userStates[chatId := if chatId in userStates then userStates[chatId] else Idle];
      userData := userData[chatId := if chatId in userData then userData[chatId] else NoData];
      ghost var states0, data0 := userStates, userData;
      var thrown;
      calls, thrown := Dispatch(chatId, text, 100000 + draw, hash, outcome);
      ghost var states1, data1, calls1 := userStates, userData, calls;
      if thrown {
        calls := calls + [SendMessage(GenericError)];
        ResetUser(chatId);
      }
      MessageStep(old(userStates), old(userData), states0, data0, states1, data1, userStates, userData,
                  chatId, Event(text, draw, hash, outcome), calls1, thrown, calls);
    }

    /** The body of the handler's switch: the case of the chat's current
        state, up to the call that throws if one does. */
    method Dispatch(chatId: int, text: string, code: int, hash: string, outcome: Outcome)
      returns (calls: seq<Call>, thrown: bool)
      requires chatId in userStates && chatId in userData
      modifies this
      ensures Stepped(old(userStates), old(userData), userStates, userData, chatId,
                      Handle(old(userStates[chatId]), old(userData[chatId]), text, code, hash),
                      outcome, calls, thrown)
    {
      ghost var d := userData[chatId];
      ghost var t := Handle(userStates[chatId], d, text, code, hash);
      match userStates[chatId] {
        case Idle =>
          calls, thrown := Start(chatId, outcome);
          assert t == Handle(Idle, d, "", 0, "");
        case Nome =>
          calls, thrown := TakeName(chatId, text, outcome);
          assert t == Handle(Nome, d, text, 0, "");
        case Email =>
          calls, thrown := TakeEmail(chatId, text, code, outcome);
          assert t == Handle(Email, d, text, code, "");
        case EmailVerificacao =>
          calls, thrown := TakeCode(chatId, text, outcome);
          assert t == Handle(EmailVerificacao, d, text, 0, "");
        case DocumentType =>
          calls, thrown := TakeDocumentType(chatId, text, outcome);
          assert t == Handle(DocumentType, d, text, 0, "");
        case Cpf =>
          calls, thrown := TakeCpf(chatId, text, outcome);
          assert t == Handle(Cpf, d, text, 0, "");
        case Cnpj =>
          calls, thrown := TakeCnpj(chatId, text, outcome);
          assert t == Handle(Cnpj, d, text, 0, "");
        case DocumentUpload =>
          calls, thrown := TakeDocument(chatId, outcome);
          assert t == Handle(DocumentUpload, d, "", 0, "");
        case AddCnpjLater =>
          calls, thrown := TakeMoreCnpj(chatId, text, outcome);
          assert t == Handle(AddCnpjLater, d, text, 0, "");
        case Senha =>
          calls, thrown := TakePassword(chatId, text, hash, outcome);
          assert t == Handle(Senha, d, text, 0, hash);
      }
    }

    /** NONE: welcome the user and ask for a name. */
    method Start(chatId: int, outcome: Outcome) returns (calls: seq<Call>, thrown: bool)
      requires chatId in userStates && chatId in userData && userStates[chatId] == Idle
      modifies this
      ensures Stepped(old(userStates), old(userData), userStates, userData, chatId,
                      Handle(Idle, old(userData[chatId]), "", 0, ""), outcome, calls, thrown)
      ensures thrown ==> userStates == old(userStates) && userData == old(userData)
    {
      calls := [SendMessage(Welcome)];
      thrown := Throws(outcome, calls);
      if !thrown {
        userStates := userStates[chatId := Nome];
      }
    }

    /** NOME: record the name and ask for the email. */
    method TakeName(chatId: int, text: string, outcome: Outcome) returns (calls: seq<Call>, thrown: bool)
      requires chatId in userStates && chatId in userData && userStates[chatId] == Nome
      modifies this
      ensures Stepped(old(userStates), old(userData), userStates, userData, chatId,
                      Handle(Nome, old(userData[chatId]), text, 0, ""), outcome, calls, thrown)
      ensures thrown ==> userStates == old(userStates)
      ensures thrown ==> userData == old(userData)[chatId := old(userData[chatId]).(nome := Some(text))]
    {
      userData := userData[chatId := userData[chatId].(nome := Some(text))];
      calls := [SendMessage(AskEmail)];
      thrown := Throws(outcome, calls);
      if !thrown {
        userStates := userStates[chatId := Email];
      }
    }

    /** EMAIL: a valid address is stored with the code, which is mailed to
        it; anything else is re-prompted. */
    method TakeEmail(chatId: int, text: string, code: int, outcome: Outcome)
      returns (calls: seq<Call>, thrown: bool)
      requires chatId in userStates && chatId in userData && userStates[chatId] == Email
      modifies this
      ensures Stepped(old(userStates), old(userData), userStates, userData, chatId,
                      Handle(Email, old(userData[chatId]), text, code, ""), outcome, calls, thrown)
      ensures thrown ==> userStates == old(userStates)
      ensures thrown ==>
                userData == (if IsValidEmail(text)
                              then old(userData)[chatId := old(userData[chatId]).(email := Some(text), codigoConfirmacao := Some(code))]
                              else old(userData))
    {
      if IsValidEmail(text) {
        userData := userData[chatId := userData[chatId].(email := Some(text), codigoConfirmacao := Some(code))];
        calls := [SendVerificationEmail(text, code)];
        thrown := Throws(outcome, calls);
        if !thrown {
          calls := calls + [SendMessage(CodeSent)];
          thrown := Throws(outcome, calls);
          if !thrown {
            userStates := userStates[chatId := EmailVerificacao];
          }
        }
      } else {
        calls := [SendMessage(InvalidEmail)];
        thrown := Throws(outcome, calls);
      }
    }

    /** EMAIL_VERIFICACAO: advance when parseInt of the reply equals the
        stored code. */
    method TakeCode(chatId: int, text: string, outcome: Outcome) returns (calls: seq<Call>, thrown: bool)
      requires chatId in userStates && chatId in userData && userStates[chatId] == EmailVerificacao
      modifies this
      ensures Stepped(old(userStates), old(userData), userStates, userData, chatId,
                      Handle(EmailVerificacao, old(userData[chatId]), text, 0, ""), outcome, calls, thrown)
      ensures thrown ==> userStates == old(userStates) && userData == old(userData)
    {
      ghost var d := userData[chatId];
      if CodeMatches(text, userData[chatId].codigoConfirmacao) {
        calls := [SendMessage(EmailConfirmed)];
        thrown := Throws(outcome, calls);
        assert Handle(EmailVerificacao, d, text, 0, "") == Transition([SendMessage(EmailConfirmed)], Continue(DocumentType, d));
        if !thrown {
          userStates := userStates[chatId := DocumentType];
        }
      } else {
        calls := [SendMessage(WrongCode)];
        thrown := Throws(outcome, calls);
        assert Handle(EmailVerificacao, d, text, 0, "") == Transition([SendMessage(WrongCode)], Continue(EmailVerificacao, d));
      }
    }

    /** DOCUMENT_TYPE: "CPF" or "CNPJ" in any case. */
    method TakeDocumentType(chatId: int, text: string, outcome: Outcome)
      returns (calls: seq<Call>, thrown: bool)
      requires chatId in userStates && chatId in userData && userStates[chatId] == DocumentType
      modifies this
      ensures Stepped(old(userStates), old(userData), userStates, userData, chatId,
                      Handle(DocumentType, old(userData[chatId]), text, 0, ""), outcome, calls, thrown)
      ensures thrown ==> userStates == old(userStates)
      ensures thrown ==>
                userData == (if ToUpper(text) == "CPF" || ToUpper(text) == "CNPJ"
                              then old(userData)[chatId := old(userData[chatId]).(documentType := Some(ToUpper(text)))]
                              else old(userData))
    {
      var kind := ToUpper(text);
      if kind == "CPF" || kind == "CNPJ" {
        userData := userData[chatId := userData[chatId].(documentType := Some(kind))];
        calls := [SendMessage(AskId(kind))];
        thrown := Throws(outcome, calls);
        if !thrown {
          userStates := userStates[chatId := if kind == "CPF" then Cpf else Cnpj];
        }
      } else {
        calls := [SendMessage(InvalidDocumentType)];
        thrown := Throws(outcome, calls);
      }
    }

    /** CPF: a reply isValidCPF accepts is stored as typed. */
    method TakeCpf(chatId: int, text: string, outcome: Outcome) returns (calls: seq<Call>, thrown: bool)
      requires chatId in userStates && chatId in userData && userStates[chatId] == Cpf
      modifies this
      ensures Stepped(old(userStates), old(userData), userStates, userData, chatId,
                      Handle(Cpf, old(userData[chatId]), text, 0, ""), outcome, calls, thrown)
      ensures thrown ==> userStates == old(userStates)
      ensures thrown ==>
                userData == (if CpfValid(text) then old(userData)[chatId := old(userData[chatId]).(cpf := Some(text))]
                              else old(userData))
    {
      var valid := IsValidCpf(text);
      if valid {
        userData := userData[chatId := userData[chatId].(cpf := Some(text))];
        calls := [SendMessage(CpfAccepted)];
        thrown := Throws(outcome, calls);
        if !thrown {
          userStates := userStates[chatId := DocumentUpload];
        }
      } else {
        calls := [SendMessage(InvalidCpf)];
        thrown := Throws(outcome, calls);
      }
    }

    /** CNPJ: a reply isValidCNPJ accepts is stored as typed. */
    method TakeCnpj(chatId: int, text: string, outcome: Outcome) returns (calls: seq<Call>, thrown: bool)
      requires chatId in userStates && chatId in userData && userStates[chatId] == Cnpj
      modifies this
      ensures Stepped(old(userStates), old(userData), userStates, userData, chatId,
                      Handle(Cnpj, old(userData[chatId]), text, 0, ""), outcome, calls, thrown)
      ensures thrown ==> userStates == old(userStates)
      ensures thrown ==>
                userData == (if CnpjValid(text) then old(userData)[chatId := old(userData[chatId]).(cnpj := Some(text))]
                              else old(userData))
    {
      var valid := IsValidCnpj(text);
      if valid {
        userData := userData[chatId := userData[chatId].(cnpj := Some(text))];
        calls := [SendMessage(CnpjAccepted)];
        thrown := Throws(outcome, calls);
        if !thrown {
          userStates := userStates[chatId := DocumentUpload];
        }
      } else {
        calls := [SendMessage(InvalidCnpj)];
        thrown := Throws(outcome, calls);
      }
    }

    /** DOCUMENT_UPLOAD: any message counts as the document; nothing is
        stored. */
    method TakeDocument(chatId: int, outcome: Outcome) returns (calls: seq<Call>, thrown: bool)
      requires chatId in userStates && chatId in userData && userStates[chatId] == DocumentUpload
      modifies this
      ensures Stepped(old(userStates), old(userData), userStates, userData, chatId,
                      Handle(DocumentUpload, old(userData[chatId]), "", 0, ""), outcome, calls, thrown)
      ensures thrown ==> userStates == old(userStates) && userData == old(userData)
    {
      calls := [SendMessage(DocumentReceived)];
      thrown := Throws(outcome, calls);
      if !thrown {
        userStates := userStates[chatId := AddCnpjLater];
      }
    }

    /** ADD_CNPJ_LATER: "sim" asks for a CNPJ, "não" ends the session
        without saving, anything else is re-prompted. */
    method TakeMoreCnpj(chatId: int, text: string, outcome: Outcome) returns (calls: seq<Call>, thrown: bool)
      requires chatId in userStates && chatId in userData && userStates[chatId] == AddCnpjLater
      modifies this
      ensures Stepped(old(userStates), old(userData), userStates, userData, chatId,
                      Handle(AddCnpjLater, old(userData[chatId]), text, 0, ""), outcome, calls, thrown)
      ensures thrown ==> userStates == old(userStates) && userData == old(userData)
    {
      var answer := ToLower(text);
      if answer == "sim" {
        calls := [SendMessage(AskCnpj)];
        thrown := Throws(outcome, calls);
        if !thrown {
          userStates := userStates[chatId := Cnpj];
        }
      } else if answer == "não" {
        calls := [SendMessage(RegistrationComplete)];
        thrown := Throws(outcome, calls);
        if !thrown {
          ResetUser(chatId);
        }
      } else {
        calls := [SendMessage(InvalidYesNo)];
        thrown := Throws(outcome, calls);
      }
    }

    /** SENHA: hash the password, save the record, confirm and reset. */
    method TakePassword(chatId: int, text: string, hash: string, outcome: Outcome)
      returns (calls: seq<Call>, thrown: bool)
      requires chatId in userStates && chatId in userData && userStates[chatId] == Senha
      modifies this
      ensures Stepped(old(userStates), old(userData), userStates, userData, chatId,
                      Handle(Senha, old(userData[chatId]), text, 0, hash), outcome, calls, thrown)
      ensures thrown ==> userStates == old(userStates)
      ensures thrown ==>
                userData == (if outcome == Rejected(0) then old(userData)
                              else old(userData)[chatId := old(userData[chatId]).(senha := Some(hash))])
    {
      calls := [HashPassword(text, 10)];
      thrown := Throws(outcome, calls);
      if !thrown {
        userData := userData[chatId := userData[chatId].(senha := Some(hash))];
        calls := calls + [SaveToDatabase(RowOf(userData[chatId]))];
        thrown := Throws(outcome, calls);
        if !thrown {
          calls := calls + [SendMessage(Registered)];
          thrown := Throws(outcome, calls);
          if !thrown {
            ResetUser(chatId);
          }
        }
      }
    }
  }

  /** SENHA always ends the session, so a step from any session the maps
      admit leads to one whose record is right. */
  lemma NextSessionOk(s: Session, e: Event)
    requires s.Present? ==> s.state == Senha || Collected(s.state, s.data)
    ensures SessionOk(Next(s, e).0)
  {
    if s.Present? && s.state == Senha {
      assert Handle(Senha, s.data, e.text, 100000 + e.draw, e.hash).after == Reset;
    } else {
      NextKeepsSessionOk(s, e);
    }
  }

  /** A step that follows Next on one chat and leaves the others alone
      keeps the two maps valid. */
  lemma KeepsValid(states0: map<int, State>, data0: map<int, UserData>,
                   states1: map<int, State>, data1: map<int, UserData>, chatId: int,
                   next: (Session, seq<Call>))
    requires SessionsOk(states0, data0)
    requires states1 - {chatId} == states0 - {chatId} && data1 - {chatId} == data0 - {chatId}
    requires SessionIn(states1, data1, chatId) == next.0
    requires chatId in states1 <==> chatId in data1
    requires SessionOk(next.0)
    ensures SessionsOk(states1, data1)
  {
    forall c | c != chatId
      ensures (c in states1 <==> c in states0) && (c in data1 <==> c in data0)
      ensures c in states1 ==> states1[c] == states0[c]
      ensures c in data1 ==> data1[c] == data0[c]
    {
      assert c in states1 <==> c in states1 - {chatId};
      assert c in states0 <==> c in states0 - {chatId};
      assert c in data1 <==> c in data1 - {chatId};
      assert c in data0 <==> c in data0 - {chatId};
      if c in states1 {
        assert states1[c] == (states1 - {chatId})[c];
        assert states0[c] == (states0 - {chatId})[c];
      }
      if c in data1 {
        assert data1[c] == (data1 - {chatId})[c];
        assert data0[c] == (data0 - {chatId})[c];
      }
    }
  }
}
