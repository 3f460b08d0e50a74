/**
 * The Telegram side of the relay: broadcasting a text to every subscribed
 * group, and the chat commands that list, add and remove subscriptions.
 * The Bot API is an oracle object: it records every message handed to Send,
 * knows in advance which Send calls fail, and answers the administrator
 * lookup from a fixed table.
 */
module Bot {
  import opened GoTypes
  import Utf8
  import Decimal
  import opened Storage
  import opened BotTexts

  /** The `ParseMode` of an outgoing message: none, or "Markdown". */
  datatype ParseMode = Plain | Markdown

  /** One message handed to the Bot API's Send. */
  datatype Outgoing = Outgoing(chatId: int64, text: GoString, mode: ParseMode)

  /** A Bot API call that failed. */
  datatype ApiError = RequestFailed

  /** Why SendToAllGroups failed: the subscription listing could not be read. */
  datatype BroadcastError = GetGroupsFailed(cause: StoreError)

  /** The chat an update came from: its id, its type ("private", "group", ...) and its title. */
  datatype Chat = Chat(id: int64, kind: GoString, title: GoString)

  /** An incoming command message: the chat, the sender's user id, and the command name without the slash. */
  datatype Message = Message(chat: Chat, from: int64, command: GoString)

  /**
   * The Bot API client, as an oracle. `failing` holds the positions in `sent`
   * whose Send call reports an error; `admins` maps a chat to the user ids
   * GetChatAdministrators returns for it, and a chat missing from it makes
   * that lookup fail.
   */
  class Telegram {
    var sent: seq<Outgoing>
    const failing: set<nat>
    const admins: map<int64, seq<int64>>

    constructor (failing: set<nat>, admins: map<int64, seq<int64>>)
      ensures sent == [] && this.failing == failing && this.admins == admins
    {
      sent := [];
      this.failing := failing;
      this.admins := admins;
    }

    /** Send: the message is attempted whatever the outcome; `ok` is false when the API reports an error. */
    method Send(m: Outgoing) returns (ok: bool)
      modifies this
      ensures sent == old(sent) + [m]
      ensures ok == (|old(sent)| !in failing)
    {
      ok := |sent| !in failing;
      sent := sent + [m];
    }
  }

  // ---------------------------------------------------------------------------
  // Reply texts

  predicate IsGroupChat(kind: GoString) {
    kind == GroupKind || kind == SupergroupKind
  }

  predicate IsKnownCommand(command: GoString) {
    command in {CmdStartName, CmdAddGroupName, CmdRemoveGroupName, CmdStatusName, CmdHelpName}
  }

  // ---------------------------------------------------------------------------
  // Broadcast

  /** One Markdown message with `text` per listed group, in list order. */
  function Fanout(groups: seq<Group>, text: GoString): (r: seq<Outgoing>)
    ensures |r| == |groups|
    ensures forall i :: 0 <= i < |r| ==> r[i] == Outgoing(groups[i].chatId, text, Markdown)
  {
    seq(|groups|, i requires 0 <= i < |groups| => Outgoing(groups[i].chatId, text, Markdown))
  }

  // ---------------------------------------------------------------------------
  // Command gate and status report

  /** How far a mutating command gets through its checks, given the administrator lookup oracle. */
  datatype Gate = NotAGroup | LookupFailed | NotAdmin | Allowed

  /** The checks of /addgroup and /removegroup, in the order the handler makes them. */
  function GateFor(msg: Message, admins: map<int64, seq<int64>>): (g: Gate)
    ensures g == Allowed <==>
      IsGroupChat(msg.chat.kind) && msg.chat.id in admins && msg.from in admins[msg.chat.id]
    ensures g == NotAGroup <==> !IsGroupChat(msg.chat.kind)
  {
    if !IsGroupChat(msg.chat.kind) then NotAGroup
    else if msg.chat.id !in admins then LookupFailed
    else if msg.from !in admins[msg.chat.id] then NotAdmin
    else Allowed
  }

  /** The reply to a refused /addgroup or /removegroup. */
  function Refusal(g: Gate, notAdmin: GoString): GoString
    requires g != Allowed
  {
    match g
    case NotAGroup => GroupsOnlyText
    case LookupFailed => AdminCheckFailedText
    case NotAdmin => notAdmin
  }

  function BulletLine(title: GoString): GoString {
    BulletMark + title + NewLine
  }

  /** One bullet line per group, in list order. */
  function Bullets(groups: seq<Group>): GoString
    decreases |groups|
  {
    if groups == [] then []
    else Bullets(groups[..|groups| - 1]) + BulletLine(groups[|groups| - 1].title)
  }

  /** The header of a non-empty status report: the number of subscribed groups. */
  function StatusHeader(n: nat): GoString {
    StatusHead + Decimal.Digits(n) + BlankLine
  }

  /** The /status report for a listing. */
  function StatusText(groups: seq<Group>): GoString {
    if |groups| == 0 then NoGroupsText else StatusHeader(|groups|) + Bullets(groups)
  }

  /** The bullets of a concatenated listing are the bullets of its parts, in order. */
  lemma {:induction false} BulletsAppend(a: seq<Group>, b: seq<Group>)
    ensures Bullets(a + b) == Bullets(a) + Bullets(b)
    decreases |b|
  {
    if b == [] {
      assert a + b == a;
    } else {
      var b', line := b[..|b| - 1], BulletLine(b[|b| - 1].title);
      assert (a + b)[..|a + b| - 1] == a + b' && (a + b)[|a + b| - 1] == b[|b| - 1];
      assert Bullets(a + b) == Bullets(a + b') + line;
      BulletsAppend(a, b');
      assert Bullets(a) + Bullets(b') + line == Bullets(a) + (Bullets(b') + line);
    }
  }

  /** Appending one group appends its bullet line. */
  lemma BulletsSnoc(groups: seq<Group>, g: Group)
    ensures Bullets(groups + [g]) == Bullets(groups) + BulletLine(g.title)
  {
    var s := groups + [g];
    assert s[..|s| - 1] == groups;
  }

  /** A sequence is what comes before position `i`, the element there, and what follows. */
  lemma SplitAround(groups: seq<Group>, i: nat)
    requires i < |groups|
    ensures groups[..i] + [groups[i]] + groups[i + 1..] == groups
  {
    assert groups[..i + 1] == groups[..i] + [groups[i]];
    assert groups[..i + 1] + groups[i + 1..] == groups;
  }

  /** Group `i` contributes exactly its own bullet line, placed after the lines of the groups before it. */
  lemma BulletAt(groups: seq<Group>, i: nat)
    requires i < |groups|
    ensures Bullets(groups) == Bullets(groups[..i]) + BulletLine(groups[i].title) + Bullets(groups[i + 1..])
  {
    var before, g, after := groups[..i], groups[i], groups[i + 1..];
    var front := before + [g];
    SplitAround(groups, i);
    BulletsSnoc(before, g);
    BulletsAppend(front, after);
  }

  /** A non-empty report starts with a header whose number reads back as the number of groups. */
  lemma StatusReportsCount(groups: seq<Group>)
    requires |groups| > 0
    ensures StatusText(groups) == StatusHead + Decimal.Digits(|groups|) + BlankLine + Bullets(groups)
    ensures Decimal.Value(Decimal.Digits(|groups|)) == |groups|
  {
    Decimal.ValueOfDigits(|groups|);
  }

  /** With well-formed titles (Telegram only delivers those) the bullet list is well-formed UTF-8. */
  lemma {:induction false} BulletsValid(groups: seq<Group>)
    requires forall i :: 0 <= i < |groups| ==> Utf8.Valid(groups[i].title)
    ensures Utf8.Valid(Bullets(groups))
    decreases |groups|
  {
    if groups != [] {
      var last := groups[|groups| - 1];
      BulletsValid(groups[..|groups| - 1]);
      Utf8.ConcatValid(BulletMark, last.title);
      Utf8.ConcatValid(BulletMark + last.title, NewLine);
      Utf8.ConcatValid(Bullets(groups[..|groups| - 1]), BulletLine(last.title));
    }
  }

  /** How the store behaves during one command, as an oracle. */
  datatype StoreOracle = StoreOracle(writeFails: bool, readFault: ReadFault, now: GoString)

  /** cmdStatus's strings.Builder: the header, then one bullet line per group. */
  method RenderStatus(groups: seq<Group>) returns (text: GoString)
    ensures text == StatusText(groups)
  {
    if |groups| == 0 {
      return NoGroupsText;
    }
    var sb := StatusHeader(|groups|);
    var i := 0;
    while i < |groups|
      invariant 0 <= i <= |groups|
      invariant sb == StatusHeader(|groups|) + Bullets(groups[..i])
    {
      assert groups[..i + 1][..i] == groups[..i];
      sb := sb + BulletLine(groups[i].title);
      i := i + 1;
    }
    assert groups[..i] == groups;
    text := sb;
  }

  /** The bot: a Bot API client and the subscription store. */
  class Bot {
    const api: Telegram
    const storage: Store

    constructor (api: Telegram, storage: Store)
      ensures this.api == api && this.storage == storage
    {
      this.api := api;
      this.storage := storage;
    }

    /**
     * isUserAdmin: fetch the chat's administrators and search them for the
     * user. A failed lookup is an error, not a "no".
     */
    method IsUserAdmin(chatId: int64, userId: int64) returns (r: Result<bool, ApiError>)
      ensures chatId !in api.admins ==> r == Err(RequestFailed)
      ensures chatId in api.admins ==> r == Ok(userId in api.admins[chatId])
    {
      if chatId !in api.admins {
        return Err(RequestFailed);
      }
      var admins := api.admins[chatId];
      var i := 0;
      while i < |admins|
        invariant 0 <= i <= |admins|
        invariant userId !in admins[..i]
      {
        if admins[i] == userId {
          return Ok(true);
        }
        assert admins[..i + 1] == admins[..i] + [admins[i]];
        i := i + 1;
      }
      assert admins[..i] == admins;
      return Ok(false);
    }

    /**
     * SendToAllGroups: list the groups, then attempt one Markdown send per
     * group. A failed send is only logged; only a failed listing fails the call.
     */
    method SendToAllGroups(text: GoString, fault: ReadFault) returns (r: Outcome<BroadcastError>)
      modifies api
      ensures Listing(storage.rows, fault).Err? ==>
        r == Fail(GetGroupsFailed(Listing(storage.rows, fault).error)) && api.sent == old(api.sent)
      ensures Listing(storage.rows, fault).Ok? ==>
        r == Pass && api.sent == old(api.sent) + Fanout(storage.rows, text)
    {
      var listed := storage.GetAllGroups(fault);
      if listed.Err? {
        return Fail(GetGroupsFailed(listed.error));
      }
      var groups := listed.value;
      var i := 0;
      while i < |groups|
        invariant 0 <= i <= |groups|
        invariant api.sent == old(api.sent) + Fanout(groups[..i], text)
      {
        var ok := api.Send(Outgoing(groups[i].chatId, text, Markdown));
        if !ok {
          // logged, and the loop goes on with the next group
        }
        assert Fanout(groups[..i + 1], text) == Fanout(groups[..i], text) + [Outgoing(groups[i].chatId, text, Markdown)];
        i := i + 1;
      }
      assert groups[..i] == groups;
      return Pass;
    }

    /** cmdStart: the usage text, in Markdown, to the invoking chat. */
    method CmdStart(msg: Message)
      modifies api
      ensures api.sent == old(api.sent) + [Outgoing(msg.chat.id, StartText, Markdown)]
    {
      var _ := api.Send(Outgoing(msg.chat.id, StartText, Markdown));
    }

    /** cmdHelp: exactly what cmdStart does. */
    method CmdHelp(msg: Message)
      modifies api
      ensures api.sent == old(api.sent) + [Outgoing(msg.chat.id, StartText, Markdown)]
    {
      CmdStart(msg);
    }

    /**
     * cmdAddGroup: group chats only, administrators only, then the upsert of
     * (chat id, chat title, sender id); one plain reply to the chat in every case.
     */
    method CmdAddGroup(msg: Message, oracle: StoreOracle)
      requires storage.Valid()
      modifies api, storage
      ensures storage.Valid()
      ensures GateFor(msg, api.admins) != Allowed ==>
        && unchanged(storage)
        && api.sent == old(api.sent) + [Outgoing(msg.chat.id, Refusal(GateFor(msg, api.admins), AddNotAdminText), Plain)]
      ensures GateFor(msg, api.admins) == Allowed && (oracle.writeFails || old(storage.lastId) == MaxInt64) ==>
        && storage.rows == old(storage.rows) && storage.lastId == old(storage.lastId)
        && api.sent == old(api.sent) + [Outgoing(msg.chat.id, AddFailedText, Plain)]
      ensures GateFor(msg, api.admins) == Allowed && !oracle.writeFails && old(storage.lastId) < MaxInt64 ==>
        && storage.lastId == old(storage.lastId) + 1
        && storage.lastId !in old(storage.issued)
        && storage.rows == Upserted(old(storage.rows),
                                    Group(storage.lastId, msg.chat.id, msg.chat.title, msg.from, oracle.now))
        && api.sent == old(api.sent) + [Outgoing(msg.chat.id, AddedText, Plain)]
    {
      if !IsGroupChat(msg.chat.kind) {
        var _ := api.Send(Outgoing(msg.chat.id, GroupsOnlyText, Plain));
        return;
      }
      var isAdmin := IsUserAdmin(msg.chat.id, msg.from);
      if isAdmin.Err? {
        var _ := api.Send(Outgoing(msg.chat.id, AdminCheckFailedText, Plain));
        return;
      }
      if !isAdmin.value {
        var _ := api.Send(Outgoing(msg.chat.id, AddNotAdminText, Plain));
        return;
      }
      var stored := storage.AddGroup(msg.chat.id, msg.chat.title, msg.from, oracle.now, oracle.writeFails);
      if stored.Fail? {
        var _ := api.Send(Outgoing(msg.chat.id, AddFailedText, Plain));
        return;
      }
      var _ := api.Send(Outgoing(msg.chat.id, AddedText, Plain));
    }

    /** cmdRemoveGroup: the same checks as cmdAddGroup, then the delete of the chat's row. */
    method CmdRemoveGroup(msg: Message, oracle: StoreOracle)
      requires storage.Valid()
      modifies api, storage
      ensures storage.Valid()
      ensures GateFor(msg, api.admins) != Allowed ==>
        && unchanged(storage)
        && api.sent == old(api.sent) + [Outgoing(msg.chat.id, Refusal(GateFor(msg, api.admins), RemoveNotAdminText), Plain)]
      ensures GateFor(msg, api.admins) == Allowed ==>
        && storage.lastId == old(storage.lastId)
        && storage.rows == (if oracle.writeFails then old(storage.rows) else Without(old(storage.rows), msg.chat.id))
        && api.sent == old(api.sent) + [Outgoing(msg.chat.id, if oracle.writeFails then RemoveFailedText else RemovedText, Plain)]
    {
      if !IsGroupChat(msg.chat.kind) {
        var _ := api.Send(Outgoing(msg.chat.id, GroupsOnlyText, Plain));
        return;
      }
      var isAdmin := IsUserAdmin(msg.chat.id, msg.from);
      if isAdmin.Err? {
        var _ := api.Send(Outgoing(msg.chat.id, AdminCheckFailedText, Plain));
        return;
      }
      if !isAdmin.value {
        var _ := api.Send(Outgoing(msg.chat.id, RemoveNotAdminText, Plain));
        return;
      }
      var removed := storage.RemoveGroup(msg.chat.id, oracle.writeFails);
      if removed.Fail? {
        var _ := api.Send(Outgoing(msg.chat.id, RemoveFailedText, Plain));
        return;
      }
      var _ := api.Send(Outgoing(msg.chat.id, RemovedText, Plain));
    }

    /** cmdStatus: the report in Markdown, or a plain error reply when the listing fails. */
    method CmdStatus(msg: Message, oracle: StoreOracle)
      modifies api
      ensures Listing(storage.rows, oracle.readFault).Err? ==>
        api.sent == old(api.sent) + [Outgoing(msg.chat.id, StatusFailedText, Plain)]
      ensures Listing(storage.rows, oracle.readFault).Ok? ==>
        api.sent == old(api.sent) + [Outgoing(msg.chat.id, StatusText(storage.rows), Markdown)]
    {
      var listed := storage.GetAllGroups(oracle.readFault);
      if listed.Err? {
        var _ := api.Send(Outgoing(msg.chat.id, StatusFailedText, Plain));
        return;
      }
      var text := RenderStatus(listed.value);
      var _ := api.Send(Outgoing(msg.chat.id, text, Markdown));
    }

    /**
     * handleCommand: dispatch on the command name. Unknown commands get no
     * reply and leave the store alone; every known one sends exactly one reply
     * to the invoking chat; only an allowed /addgroup or /removegroup writes.
     */
    method HandleCommand(msg: Message, oracle: StoreOracle)
      requires storage.Valid()
      modifies api, storage
      ensures storage.Valid()
      ensures !IsKnownCommand(msg.command) ==> api.sent == old(api.sent) && unchanged(storage)
      ensures msg.command == CmdStartName || msg.command == CmdHelpName ==>
        api.sent == old(api.sent) + [Outgoing(msg.chat.id, StartText, Markdown)] && unchanged(storage)
      ensures IsKnownCommand(msg.command) ==>
        |api.sent| == |old(api.sent)| + 1 && api.sent[..|old(api.sent)|] == old(api.sent)
        && api.sent[|old(api.sent)|].chatId == msg.chat.id
      ensures storage.rows != old(storage.rows) || storage.lastId != old(storage.lastId) ==>
        (msg.command == CmdAddGroupName || msg.command == CmdRemoveGroupName)
        && GateFor(msg, api.admins) == Allowed
    {
      if msg.command == CmdStartName {
        CmdStart(msg);
      } else if msg.command == CmdAddGroupName {
        CmdAddGroup(msg, oracle);
      } else if msg.command == CmdRemoveGroupName {
        CmdRemoveGroup(msg, oracle);
      } else if msg.command == CmdStatusName {
        CmdStatus(msg, oracle);
      } else if msg.command == CmdHelpName {
        CmdHelp(msg);
      }
    }
  }
}
