/**
  The Telegram side as a function of one message: the dispatcher picks the
  first handler whose filters match (`/start`, then a document while the
  sender waits for a file, then `/setdomain`, then `/getlink`), and the
  handler decides the reply and the new per-sender state and files.
 */
module Conversation {
  import opened Wrappers
  import opened Os
  import opened PyStr
  import opened Admins
  import opened Store
  import opened Domain
  import Gateway

  /** The FSM state of one sender; having no state is `Idle`. */
  datatype ConvState = Idle | WaitingForFile

  type States = map<UserId, ConvState>

  function StateOf(states: States, u: UserId): ConvState {
    if u in states then states[u] else Idle
  }

  /** `message.document`: the Telegram file id and the optional original name. */
  datatype Document = Document(fileId: string, fileName: Option<string>)

  datatype Message = Message(sender: UserId, text: Option<string>, caption: Option<string>, document: Option<Document>)

  /** Which answer the bot sends; the wording is not modelled, the links are. */
  datatype Reply =
    | NoRights
    | UploadPrompt
    | FileSaved(link: string)
    | SetDomainUsage
    | DomainSet(shown: string)
    | CurrentLink(link: string)
    | HandlerFailed   // the handler raised before answering
    | Unhandled       // no handler matched; nothing is sent

  /** What is fixed for the life of the process: `ADMINS` and the environment. */
  datatype Config = Config(admins: seq<UserId>, env: Env)

  /** The state a message acts on: the FSM storage and the two JSON files. */
  datatype World = World(states: States, files: JsonFile<FilesDoc>, domain: JsonFile<DomainDoc>)

  datatype Outcome = Outcome(world: World, reply: Reply)

  /**
    The text a command filter reads: `message.text or message.caption`. A
    non-empty text wins; without one, the caption (if any) is read.
   */
  function CommandText(m: Message): (r: Option<string>)
    ensures m.text.Some? && m.text.value != [] ==> r == m.text
    ensures r.Some? ==> r == m.text || r == m.caption
    ensures m.text.None? || m.text.value == [] ==> r == m.caption
    ensures r.None? <==> (m.text.None? || m.text.value == []) && m.caption.None?
  {
    if m.text.Some? && m.text.value != [] then m.text else m.caption
  }

  /** `t` starts, after optional whitespace, with the word `w`. */
  ghost predicate LeadingWord(t: string, w: string) {
    exists a | 0 <= a && a + |w| <= |t| ::
      AllSpace(t[..a]) && t[a..a + |w|] == w && (a + |w| == |t| || IsSpace(t[a + |w|]))
  }

  /** `Command(name)`: the first word of the text is `/name`. */
  predicate IsCommand(m: Message, name: string)
    ensures IsCommand(m, name) ==> CommandText(m).Some? && LeadingWord(CommandText(m).value, "/" + name)
  {
    var t := CommandText(m);
    t.Some? && var words := SplitMaxOne(t.value); |words| >= 1 && words[0] == "/" + name
  }

  /**
    `cmd_start`: an admin, and only an admin, is put into
    `waiting_for_file`; no one else's state and neither file changes.
   */
  function OnStart(cfg: Config, w: World, sender: UserId): (o: Outcome)
    ensures o.world.files == w.files && o.world.domain == w.domain
    ensures o.reply == NoRights <==> !IsAdmin(cfg.admins, sender)
    ensures StateOf(o.world.states, sender) == WaitingForFile <==>
      IsAdmin(cfg.admins, sender) || StateOf(w.states, sender) == WaitingForFile
    ensures forall u | u != sender :: StateOf(o.world.states, u) == StateOf(w.states, u)
    ensures WaitingAreAdmins(cfg, w.states) ==> WaitingAreAdmins(cfg, o.world.states)
  {
    if !IsAdmin(cfg.admins, sender) then Outcome(w, NoRights)
    else Outcome(w.(states := w.states[sender := WaitingForFile]), UploadPrompt)
  }

  /**
    `handle_file`: a non-admin changes nothing; for an admin the store is
    replaced by the document's record, the sender's state is cleared and
    the link is sent back.
   */
  function OnFile(cfg: Config, w: World, sender: UserId, doc: Document): (o: Outcome)
    ensures o.world.domain == w.domain
    ensures !IsAdmin(cfg.admins, sender) ==> o == Outcome(w, NoRights)
    ensures IsAdmin(cfg.admins, sender) ==>
      && o.world.files.Parsed? && o.world.files.doc.Keys == {CurrentKey}
      && GetCurrentFileMeta(o.world.files) == Some(MetaFor(doc.fileId, FileNameOr(doc.fileName)))
      && StateOf(o.world.states, sender) == Idle
      && o.reply == FileSaved(GetDomain(w.domain, cfg.env) + "/")
    ensures forall u | u != sender :: StateOf(o.world.states, u) == StateOf(w.states, u)
    ensures WaitingAreAdmins(cfg, w.states) ==> WaitingAreAdmins(cfg, o.world.states)
  {
    if !IsAdmin(cfg.admins, sender) then Outcome(w, NoRights)
    else
      var files := SaveCurrentFileMeta(doc.fileId, FileNameOr(doc.fileName));
      var link := GetDomain(w.domain, cfg.env) + "/";
      Outcome(World(w.states - {sender}, files, w.domain), FileSaved(link))
  }

  /**
    `cmd_setdomain`; `message.text` is `None` when the command came as a
    caption, and the handler raises. Only an admin's command with an
    argument writes, and what it writes has a scheme and is echoed back
    followed by `/`.
   */
  function OnSetDomain(cfg: Config, w: World, sender: UserId, text: Option<string>): (o: Outcome)
    ensures o.world.states == w.states && o.world.files == w.files
    ensures o.reply.DomainSet? <==> IsAdmin(cfg.admins, sender) && text.Some? && |SplitMaxOne(text.value)| == 2
    ensures !o.reply.DomainSet? ==> o.world == w
    ensures o.reply.DomainSet? ==>
      var shown := o.reply.shown;
      && shown != [] && shown[|shown| - 1] == '/'
      && HasScheme(shown[..|shown| - 1])
      && o.world.domain == SetDomain(shown[..|shown| - 1])
  {
    if !IsAdmin(cfg.admins, sender) then Outcome(w, NoRights)
    else if text.None? then Outcome(w, HandlerFailed)
    else
      match SetDomainArgument(text.value)
      case None => Outcome(w, SetDomainUsage)
      case Some(arg) =>
        var domain := WithScheme(arg);
        assert (domain + "/")[..|domain|] == domain;
        Outcome(w.(domain := SetDomain(domain)), DomainSet(domain + "/"))
  }

  /** `cmd_getlink`: the rejection for a non-admin, the base URL and `/` for an admin. */
  function OnGetLink(cfg: Config, w: World, sender: UserId): (r: Reply)
    ensures r.CurrentLink? <==> IsAdmin(cfg.admins, sender)
    ensures !r.CurrentLink? ==> r == NoRights
    ensures r.CurrentLink? ==> r.link == GetDomain(w.domain, cfg.env) + "/"
  {
    if !IsAdmin(cfg.admins, sender) then NoRights else CurrentLink(GetDomain(w.domain, cfg.env) + "/")
  }

  /**
    The dispatcher: handlers are tried in the order they are registered.
    A non-admin's message changes nothing; only a document from a waiting
    sender writes the store, and only `/setdomain` writes the domain; the
    only-admins-wait invariant is kept.
   */
  function Step(cfg: Config, w: World, m: Message): (o: Outcome)
    ensures !IsAdmin(cfg.admins, m.sender) ==> o.world == w
    ensures o.world.files != w.files ==>
      !IsCommand(m, "start") && StateOf(w.states, m.sender) == WaitingForFile && m.document.Some?
    ensures o.world.domain != w.domain ==> !IsCommand(m, "start") && IsCommand(m, "setdomain")
    ensures o.reply == Unhandled <==>
      !IsCommand(m, "start") && !(StateOf(w.states, m.sender) == WaitingForFile && m.document.Some?)
      && !IsCommand(m, "setdomain") && !IsCommand(m, "getlink")
    ensures WaitingAreAdmins(cfg, w.states) ==> WaitingAreAdmins(cfg, o.world.states)
  {
    if IsCommand(m, "start") then OnStart(cfg, w, m.sender)
    else if StateOf(w.states, m.sender) == WaitingForFile && m.document.Some? then
      OnFile(cfg, w, m.sender, m.document.value)
    else if IsCommand(m, "setdomain") then OnSetDomain(cfg, w, m.sender, m.text)
    else if IsCommand(m, "getlink") then Outcome(w, OnGetLink(cfg, w, m.sender))
    else Outcome(w, Unhandled)
  }

  /** The world after a sequence of messages, handled one at a time. */
  function Run(cfg: Config, w: World, msgs: seq<Message>): World
    decreases |msgs|
  {
    if msgs == [] then w else Run(cfg, Step(cfg, w, msgs[0]).world, msgs[1..])
  }

  /** Only admins are ever waiting for a file. */
  ghost predicate WaitingAreAdmins(cfg: Config, states: States) {
    forall u | u in states && states[u] == WaitingForFile :: IsAdmin(cfg.admins, u)
  }

  /** A sender not in `ADMINS` gets the rejection on `/start`, and nothing changes. */
  lemma StartByStranger(cfg: Config, w: World, m: Message)
    requires IsCommand(m, "start") && !IsAdmin(cfg.admins, m.sender)
    ensures Step(cfg, w, m) == Outcome(w, NoRights)
  {
  }

  /** An admin's `/start` puts that admin, and only that admin, into `waiting_for_file`. */
  lemma StartByAdmin(cfg: Config, w: World, m: Message)
    requires IsCommand(m, "start") && IsAdmin(cfg.admins, m.sender)
    ensures var o := Step(cfg, w, m);
      && StateOf(o.world.states, m.sender) == WaitingForFile
      && (forall u | u != m.sender :: StateOf(o.world.states, u) == StateOf(w.states, u))
      && o.world.files == w.files && o.world.domain == w.domain
      && o.reply == UploadPrompt
  {
  }

  /**
    An admin's document while waiting replaces the whole store by the one
    `"current"` record (name falling back to `file`) and clears the state.
   */
  lemma FileByAdmin(cfg: Config, w: World, m: Message)
    requires !IsCommand(m, "start") && m.document.Some?
    requires StateOf(w.states, m.sender) == WaitingForFile && IsAdmin(cfg.admins, m.sender)
    ensures var o := Step(cfg, w, m);
      var doc := m.document.value;
      && o.world.files.Parsed?
      && o.world.files.doc == map[CurrentKey := map[FileIdField := doc.fileId, FileNameField := FileNameOr(doc.fileName)]]
      && StateOf(o.world.states, m.sender) == Idle
      && o.reply == FileSaved(GetDomain(w.domain, cfg.env) + "/")
  {
  }

  /** A document from a sender that is not waiting is not handled as a file. */
  lemma DocumentWhileIdle(cfg: Config, w: World, m: Message)
    requires m.document.Some? && StateOf(w.states, m.sender) == Idle
    ensures Step(cfg, w, m).world.files == w.files
  {
  }

  /**
    A document from a non-admin, even one recorded as waiting, leaves the
    store and the state as they were.
   */
  lemma FileByStranger(cfg: Config, w: World, m: Message)
    requires !IsCommand(m, "start") && m.document.Some?
    requires StateOf(w.states, m.sender) == WaitingForFile && !IsAdmin(cfg.admins, m.sender)
    ensures Step(cfg, w, m) == Outcome(w, NoRights)
  {
  }

  /** `/setdomain` without an argument answers with the usage text and writes nothing. */
  lemma SetDomainWithoutArgument(cfg: Config, w: World, sender: UserId, text: string)
    requires IsAdmin(cfg.admins, sender) && |SplitMaxOne(text)| < 2
    ensures OnSetDomain(cfg, w, sender, Some(text)) == Outcome(w, SetDomainUsage)
  {
  }

  /**
    After `/setdomain` with an argument, the stored domain starts with
    `http:` or `https:`, and `/getlink` gives it back with one `/`.
   */
  lemma SetDomainThenGetLink(cfg: Config, w: World, sender: UserId, text: string)
    requires IsAdmin(cfg.admins, sender) && |SplitMaxOne(text)| == 2
    ensures var o := OnSetDomain(cfg, w, sender, Some(text));
      var stored := RStripChar(WithScheme(Strip(SplitMaxOne(text)[1])), '/');
      && o.world.states == w.states && o.world.files == w.files
      && (StartsWith(stored, "http:") || StartsWith(stored, "https:"))
      && OnGetLink(cfg, o.world, sender) == CurrentLink(stored + "/")
  {
    var arg := Strip(SplitMaxOne(text)[1]);
    StoredDomainShape(arg, cfg.env);
  }

  /** Any run of messages keeps the only-admins-wait invariant. */
  lemma {:induction false} RunKeepsWaitingAdmins(cfg: Config, w: World, msgs: seq<Message>)
    requires WaitingAreAdmins(cfg, w.states)
    ensures WaitingAreAdmins(cfg, Run(cfg, w, msgs).states)
    decreases |msgs|
  {
    if msgs != [] {
      RunKeepsWaitingAdmins(cfg, Step(cfg, w, msgs[0]).world, msgs[1..]);
    }
  }

  /** Whatever they send, senders outside `ADMINS` never change either JSON file. */
  lemma {:induction false} StrangersNeverWrite(cfg: Config, w: World, msgs: seq<Message>)
    requires forall i | 0 <= i < |msgs| :: !IsAdmin(cfg.admins, msgs[i].sender)
    ensures Run(cfg, w, msgs).files == w.files
    ensures Run(cfg, w, msgs).domain == w.domain
    decreases |msgs|
  {
    if msgs != [] {
      var w' := Step(cfg, w, msgs[0]).world;
      assert w'.files == w.files && w'.domain == w.domain;
      StrangersNeverWrite(cfg, w', msgs[1..]);
    }
  }

  /** The text `/start` is the `start` command. */
  lemma SlashStartIsStart(sender: UserId)
    ensures IsCommand(Message(sender, Some("/start"), None, None), "start")
  {
    SplitMaxOneWord("/start");
  }

  /**
    The upload flow end to end: an admin sends `/start`, then a document
    without a command caption; the store then holds exactly that document
    and the admin is idle again.
   */
  lemma StartThenUpload(cfg: Config, w: World, start: Message, upload: Message)
    requires IsCommand(start, "start") && IsAdmin(cfg.admins, start.sender)
    requires upload.sender == start.sender && upload.document.Some? && !IsCommand(upload, "start")
    ensures var after := Run(cfg, w, [start, upload]);
      var doc := upload.document.value;
      && after.files == SaveCurrentFileMeta(doc.fileId, FileNameOr(doc.fileName))
      && StateOf(after.states, start.sender) == Idle
  {
    var w1 := OnStart(cfg, w, start.sender).world;
    assert Step(cfg, w, start).world == w1;
    var w2 := OnFile(cfg, w1, start.sender, upload.document.value).world;
    assert Step(cfg, w1, upload).world == w2;
    assert [start, upload][1..] == [upload];
    assert Run(cfg, w1, [upload]) == Run(cfg, w2, []);
  }

  /**
    Upload, then download: after an admin's document is stored, `GET /`
    asks Telegram about that document's `file_id` and, when both upstream
    calls succeed, serves it under its name (or `file`).
   */
  lemma UploadThenDownload(cfg: Config, w: World, sender: UserId, doc: Document,
                           getFile: string -> Gateway.GetFileReply, fetch: string -> Gateway.ContentReply)
    requires IsAdmin(cfg.admins, sender)
    ensures var files := OnFile(cfg, w, sender, doc).world.files;
      var d := Gateway.RootDownload(files, getFile, fetch);
      && d.calls != [] && d.calls[0] == Gateway.GetFileCall(doc.fileId)
      && (d.response.status == 200 ==>
            d.response.disposition == Some(Gateway.Disposition(FileNameOr(doc.fileName))))
  {
    var files := OnFile(cfg, w, sender, doc).world.files;
    var meta := MetaFor(doc.fileId, FileNameOr(doc.fileName));
    assert GetCurrentFileMeta(files) == Some(meta);
    assert Gateway.FileIdParam(meta) == doc.fileId;
    assert Field(meta, FileNameField) == Some(FileNameOr(doc.fileName));
  }
}
