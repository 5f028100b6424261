/**
  The running bot: the FSM storage (one state per sender) and the two JSON
  files are fields that the handlers update in place. Each handler is
  proved to do what the corresponding function of `Conversation` says.
 */
module RelayBot {
  import opened Wrappers
  import opened Os
  import opened PyStr
  import opened Admins
  import opened Store
  import opened Domain
  import opened Conversation

  class Relay {
    const admins: seq<UserId>
    const env: Env
    var states: States
    var filesDb: JsonFile<FilesDoc>
    var domainDb: JsonFile<DomainDoc>

    function Cfg(): Config {
      Config(admins, env)
    }

    function Snapshot(): World
      reads this
    {
      World(states, filesDb, domainDb)
    }

    ghost predicate Valid()
      reads this
    {
      WaitingAreAdmins(Cfg(), states)
    }

    /** The process starts with no conversation in progress and whatever files are on disk. */
    constructor (admins: seq<UserId>, env: Env, filesDb: JsonFile<FilesDoc>, domainDb: JsonFile<DomainDoc>)
      ensures Valid()
      ensures this.admins == admins && this.env == env
      ensures states == map[] && this.filesDb == filesDb && this.domainDb == domainDb
    {
      this.admins := admins;
      this.env := env;
      this.states := map[];
      this.filesDb := filesDb;
      this.domainDb := domainDb;
    }

    /** `cmd_start` */
    method CmdStart(sender: UserId) returns (reply: Reply)
      modifies this`states
      ensures !IsAdmin(admins, sender) ==> reply == NoRights && states == old(states)
      ensures IsAdmin(admins, sender) ==> reply == UploadPrompt && states == old(states)[sender := WaitingForFile]
      ensures old(Valid()) ==> Valid()
    {
      if !IsAdmin(admins, sender) {
        reply := NoRights;
        return;
      }
      reply := UploadPrompt;
      states := states[sender := WaitingForFile];
    }

    /**
      `handle_file`: registered only for documents from a sender in
      `waiting_for_file`. In a bot that keeps `Valid()`, that sender is an
      admin, so the rejection branch is never taken.
     */
    method HandleFile(sender: UserId, doc: Document) returns (reply: Reply)
      requires StateOf(states, sender) == WaitingForFile
      modifies this`states, this`filesDb
      ensures !IsAdmin(admins, sender) ==>
        reply == NoRights && states == old(states) && filesDb == old(filesDb)
      ensures IsAdmin(admins, sender) ==>
        && filesDb == SaveCurrentFileMeta(doc.fileId, FileNameOr(doc.fileName))
        && states == old(states) - {sender}
        && reply == FileSaved(GetDomain(domainDb, env) + "/")
      ensures old(Valid()) ==> Valid()
      ensures old(Valid()) ==> IsAdmin(admins, sender) && reply != NoRights
    {
      if !IsAdmin(admins, sender) {
        reply := NoRights;
        return;
      }
      var fileName := FileNameOr(doc.fileName);
      filesDb := SaveCurrentFileMeta(doc.fileId, fileName);
      var link := GetDomain(domainDb, env) + "/";
      reply := FileSaved(link);
      states := states - {sender};
    }

    /** `cmd_setdomain` */
    method CmdSetDomain(sender: UserId, text: Option<string>) returns (reply: Reply)
      modifies this`domainDb
      ensures !IsAdmin(admins, sender) ==> reply == NoRights && domainDb == old(domainDb)
      ensures IsAdmin(admins, sender) && text.None? ==> reply == HandlerFailed && domainDb == old(domainDb)
      ensures IsAdmin(admins, sender) && text.Some? && SetDomainArgument(text.value).None? ==>
        reply == SetDomainUsage && domainDb == old(domainDb)
      ensures IsAdmin(admins, sender) && text.Some? && SetDomainArgument(text.value).Some? ==>
        var domain := WithScheme(SetDomainArgument(text.value).value);
        && domainDb == SetDomain(domain)
        && reply == DomainSet(domain + "/")
    {
      if !IsAdmin(admins, sender) {
        reply := NoRights;
        return;
      }
      if text.None? {
        reply := HandlerFailed;
        return;
      }
      var arg := SetDomainArgument(text.value);
      if arg.None? {
        reply := SetDomainUsage;
        return;
      }
      var domain := arg.value;
      if !StartsWith(domain, Http) && !StartsWith(domain, Https) {
        domain := Https + domain;
      }
      domainDb := SetDomain(domain);
      reply := DomainSet(domain + "/");
    }

    /** `cmd_getlink`: changes nothing. */
    method CmdGetLink(sender: UserId) returns (reply: Reply)
      ensures !IsAdmin(admins, sender) <==> reply == NoRights
      ensures IsAdmin(admins, sender) ==> reply == CurrentLink(GetDomain(domainDb, env) + "/")
    {
      if !IsAdmin(admins, sender) {
        reply := NoRights;
        return;
      }
      reply := CurrentLink(GetDomain(domainDb, env) + "/");
    }

    /** One incoming message, routed to the first handler whose filters match. */
    method Dispatch(m: Message) returns (reply: Reply)
      modifies this`states, this`filesDb, this`domainDb
      ensures Snapshot() == Step(Cfg(), old(Snapshot()), m).world
      ensures reply == Step(Cfg(), old(Snapshot()), m).reply
      ensures old(Valid()) ==> Valid()
    {
      if IsCommand(m, "start") {
        reply := CmdStart(m.sender);
      } else if StateOf(states, m.sender) == WaitingForFile && m.document.Some? {
        reply := HandleFile(m.sender, m.document.value);
      } else if IsCommand(m, "setdomain") {
        reply := CmdSetDomain(m.sender, m.text);
      } else if IsCommand(m, "getlink") {
        reply := CmdGetLink(m.sender);
      } else {
        reply := Unhandled;
      }
    }
  }
}
