/**
 * The team chat of Mediator/Program.cs: a TeamChatMediator routes messages
 * between registered TeamMembers.
 *
 * What the members print when they receive something is recorded as a trace
 * of entries (who received what, and the extra actions of testers and
 * product managers). The subclasses Developer, Tester and ProductManager
 * differ only in their role and in the handler they override, so the model
 * keeps one TeamMember class and dispatches on the role.
 */
module Mediator {
  import opened Wrappers
  import Text

  datatype TeamRole = Developer | Tester | ProductManager

  /** The enum name a role prints as. */
  function RoleName(role: TeamRole): string {
    match role
    case Developer => "Developer"
    case Tester => "Tester"
    case ProductManager => "ProductManager"
  }

  /** One line of the trace. */
  datatype Entry =
    | Received(recipient: TeamMember, senderName: string, text: string, roleSpecific: bool)
    | ReceivedDirect(recipient: TeamMember, senderName: string, text: string)
    | Notified(recipient: TeamMember, text: string)
    | BugTicket(recipient: TeamMember)            // a tester creates a bug ticket
    | StatusBoardUpdate(recipient: TeamMember)    // a product manager updates the status board

  /** A tester reacts to a message that mentions a bug or an issue, in any case. */
  predicate MentionsBug(text: string) {
    Text.ContainsIgnoreCase(text, "bug") || Text.ContainsIgnoreCase(text, "issue")
  }

  /** ReceiveMessage, with the Tester override: a tester files a ticket for a message about a bug. */
  function ReceiveMessage(m: TeamMember, text: string, senderName: string, roleSpecific: bool): (r: seq<Entry>)
    ensures |r| == if m.role == Tester && MentionsBug(text) then 2 else 1
    ensures r[0] == Received(m, senderName, text, roleSpecific)
    ensures |r| == 2 ==> r[1] == BugTicket(m)
  {
    [Received(m, senderName, text, roleSpecific)] + (if m.role == Tester && MentionsBug(text) then [BugTicket(m)] else [])
  }

  /** ReceiveDirectMessage: no override, so a direct message never files a ticket. */
  function ReceiveDirectMessage(m: TeamMember, text: string, senderName: string): (r: seq<Entry>)
    ensures r == [ReceivedDirect(m, senderName, text)]
  {
    [ReceivedDirect(m, senderName, text)]
  }

  /** ReceiveNotification, with the ProductManager override: a product manager updates the status board. */
  function ReceiveNotification(m: TeamMember, text: string): (r: seq<Entry>)
    ensures |r| == if m.role == ProductManager then 2 else 1
    ensures r[0] == Notified(m, text)
    ensures |r| == 2 ==> r[1] == StatusBoardUpdate(m)
  {
    [Notified(m, text)] + (if m.role == ProductManager then [StatusBoardUpdate(m)] else [])
  }

  // ---------------------------------------------------------------------------
  // Routing, as functions of the member list
  // ---------------------------------------------------------------------------

  /** The members other than the sender (by reference), in registration order. */
  function Others(ms: seq<TeamMember>, sender: TeamMember): seq<TeamMember>
    decreases |ms|
  {
    if ms == [] then []
    else Others(ms[..|ms| - 1], sender) + (if ms[|ms| - 1] != sender then [ms[|ms| - 1]] else [])
  }

  /** The members other than the sender that have the role, in registration order. */
  function OthersWithRole(ms: seq<TeamMember>, sender: TeamMember, role: TeamRole): seq<TeamMember>
    decreases |ms|
  {
    if ms == [] then []
    else
      var m := ms[|ms| - 1];
      OthersWithRole(ms[..|ms| - 1], sender, role) + (if m != sender && m.role == role then [m] else [])
  }

  /** What the recipients print for one message, recipient after recipient. */
  function ReceiveAll(recipients: seq<TeamMember>, text: string, senderName: string, roleSpecific: bool): seq<Entry>
    decreases |recipients|
  {
    if recipients == [] then []
    else
      var m := recipients[|recipients| - 1];
      ReceiveAll(recipients[..|recipients| - 1], text, senderName, roleSpecific) + ReceiveMessage(m, text, senderName, roleSpecific)
  }

  /** What the recipients print for one notification, recipient after recipient. */
  function NotifyEach(recipients: seq<TeamMember>, text: string): seq<Entry>
    decreases |recipients|
  {
    if recipients == [] then []
    else
      var m := recipients[|recipients| - 1];
      NotifyEach(recipients[..|recipients| - 1], text) + ReceiveNotification(m, text)
  }

  /** The three kinds of trace entry whose recipients the routing rules are stated by. */
  datatype EntryKind = ReceivedKind | TicketKind | NotifiedKind

  predicate IsKind(e: Entry, k: EntryKind) {
    match k
    case ReceivedKind => e.Received?
    case TicketKind => e.BugTicket?
    case NotifiedKind => e.Notified?
  }

  /** The members named by the entries of one kind, in order. */
  function RecipientsOf(entries: seq<Entry>, k: EntryKind): seq<TeamMember>
    decreases |entries|
  {
    if entries == [] then []
    else
      var e := entries[|entries| - 1];
      RecipientsOf(entries[..|entries| - 1], k) + (if IsKind(e, k) then [e.recipient] else [])
  }

  /** The members that received a message. */
  function ReceivedBy(entries: seq<Entry>): seq<TeamMember> {
    RecipientsOf(entries, ReceivedKind)
  }

  /** The members that filed a bug ticket. */
  function TicketsBy(entries: seq<Entry>): seq<TeamMember> {
    RecipientsOf(entries, TicketKind)
  }

  /** The members that received a notification. */
  function NotifiedBy(entries: seq<Entry>): seq<TeamMember> {
    RecipientsOf(entries, NotifiedKind)
  }

  /** The testers among the members, in order. */
  function Testers(ms: seq<TeamMember>): seq<TeamMember>
    decreases |ms|
  {
    if ms == [] then []
    else Testers(ms[..|ms| - 1]) + (if ms[|ms| - 1].role == Tester then [ms[|ms| - 1]] else [])
  }

  /** One more entry adds its recipient to the list of its kind only. */
  lemma RecipientsOfSnoc(s: seq<Entry>, e: Entry, k: EntryKind)
    ensures RecipientsOf(s + [e], k) == RecipientsOf(s, k) + (if IsKind(e, k) then [e.recipient] else [])
  {
    assert (s + [e])[..|s|] == s;
  }

  lemma {:induction false} RecipientsOfAppend(a: seq<Entry>, b: seq<Entry>, k: EntryKind)
    ensures RecipientsOf(a + b, k) == RecipientsOf(a, k) + RecipientsOf(b, k)
    decreases |b|
  {
    if b == [] {
      assert a + b == a;
    } else {
      var front := b[..|b| - 1];
      var e := b[|b| - 1];
      var last := if IsKind(e, k) then [e.recipient] else [];
      calc {
        RecipientsOf(a + b, k);
        { assert a + b == (a + front) + [e]; }
        RecipientsOf((a + front) + [e], k);
        { RecipientsOfSnoc(a + front, e, k); }
        RecipientsOf(a + front, k) + last;
        { RecipientsOfAppend(a, front, k); }
        RecipientsOf(a, k) + (RecipientsOf(front, k) + last);
        { assert b == front + [e]; RecipientsOfSnoc(front, e, k); }
        RecipientsOf(a, k) + RecipientsOf(b, k);
      }
    }
  }

  lemma ReceivedByAppend(a: seq<Entry>, b: seq<Entry>)
    ensures ReceivedBy(a + b) == ReceivedBy(a) + ReceivedBy(b)
    ensures TicketsBy(a + b) == TicketsBy(a) + TicketsBy(b)
    ensures NotifiedBy(a + b) == NotifiedBy(a) + NotifiedBy(b)
  {
    RecipientsOfAppend(a, b, ReceivedKind);
    RecipientsOfAppend(a, b, TicketKind);
    RecipientsOfAppend(a, b, NotifiedKind);
  }

  /** What one recipient's ReceiveMessage contributes to each kind of entry. */
  lemma MessageRecipients(m: TeamMember, text: string, senderName: string, roleSpecific: bool, k: EntryKind)
    ensures RecipientsOf(ReceiveMessage(m, text, senderName, roleSpecific), k) ==
            match k
            case ReceivedKind => [m]
            case TicketKind => if m.role == Tester && MentionsBug(text) then [m] else []
            case NotifiedKind => []
  {
    var r := ReceiveMessage(m, text, senderName, roleSpecific);
    if |r| == 2 {
      assert r[..1][..0] == [];
      assert RecipientsOf(r[..1], k) == (if IsKind(r[0], k) then [m] else []);
      assert RecipientsOf(r, k) == RecipientsOf(r[..1], k) + (if IsKind(r[1], k) then [m] else []);
    } else {
      assert r[..0] == [];
    }
  }

  /** What one recipient's ReceiveNotification contributes to each kind of entry. */
  lemma NotificationRecipients(m: TeamMember, text: string, k: EntryKind)
    ensures RecipientsOf(ReceiveNotification(m, text), k) == if k == NotifiedKind then [m] else []
  {
    var r := ReceiveNotification(m, text);
    if |r| == 2 {
      assert r[..1][..0] == [];
      assert RecipientsOf(r[..1], k) == (if IsKind(r[0], k) then [m] else []);
      assert RecipientsOf(r, k) == RecipientsOf(r[..1], k) + (if IsKind(r[1], k) then [m] else []);
    } else {
      assert r[..0] == [];
    }
  }

  lemma {:induction false} ReceiveAllReceived(recipients: seq<TeamMember>, text: string, senderName: string, roleSpecific: bool)
    ensures RecipientsOf(ReceiveAll(recipients, text, senderName, roleSpecific), ReceivedKind) == recipients
    decreases |recipients|
  {
    if recipients != [] {
      var init := recipients[..|recipients| - 1];
      var m := recipients[|recipients| - 1];
      ReceiveAllReceived(init, text, senderName, roleSpecific);
      MessageRecipients(m, text, senderName, roleSpecific, ReceivedKind);
      RecipientsOfAppend(ReceiveAll(init, text, senderName, roleSpecific), ReceiveMessage(m, text, senderName, roleSpecific), ReceivedKind);
      assert init + [m] == recipients;
    }
  }

  lemma {:induction false} ReceiveAllTickets(recipients: seq<TeamMember>, text: string, senderName: string, roleSpecific: bool)
    ensures RecipientsOf(ReceiveAll(recipients, text, senderName, roleSpecific), TicketKind) ==
            if MentionsBug(text) then Testers(recipients) else []
    decreases |recipients|
  {
    if recipients != [] {
      var init := recipients[..|recipients| - 1];
      var m := recipients[|recipients| - 1];
      ReceiveAllTickets(init, text, senderName, roleSpecific);
      MessageRecipients(m, text, senderName, roleSpecific, TicketKind);
      RecipientsOfAppend(ReceiveAll(init, text, senderName, roleSpecific), ReceiveMessage(m, text, senderName, roleSpecific), TicketKind);
    }
  }

  lemma {:induction false} ReceiveAllNotified(recipients: seq<TeamMember>, text: string, senderName: string, roleSpecific: bool)
    ensures RecipientsOf(ReceiveAll(recipients, text, senderName, roleSpecific), NotifiedKind) == []
    decreases |recipients|
  {
    if recipients != [] {
      var init := recipients[..|recipients| - 1];
      var m := recipients[|recipients| - 1];
      ReceiveAllNotified(init, text, senderName, roleSpecific);
      MessageRecipients(m, text, senderName, roleSpecific, NotifiedKind);
      RecipientsOfAppend(ReceiveAll(init, text, senderName, roleSpecific), ReceiveMessage(m, text, senderName, roleSpecific), NotifiedKind);
    }
  }

  lemma {:induction false} ReceiveAllFields(recipients: seq<TeamMember>, text: string, senderName: string, roleSpecific: bool)
    ensures forall e :: e in ReceiveAll(recipients, text, senderName, roleSpecific) ==>
              (e.Received? && e.senderName == senderName && e.text == text && e.roleSpecific == roleSpecific) ||
              (e.BugTicket? && e.recipient.role == Tester)
    decreases |recipients|
  {
    if recipients != [] {
      ReceiveAllFields(recipients[..|recipients| - 1], text, senderName, roleSpecific);
    }
  }

  /**
   * Every recipient of a message prints it once, in order, with the sender's
   * name and the text; exactly the testers among them file a ticket, when
   * the message mentions a bug; nobody is notified.
   */
  lemma ReceiveAllSpec(recipients: seq<TeamMember>, text: string, senderName: string, roleSpecific: bool)
    ensures ReceivedBy(ReceiveAll(recipients, text, senderName, roleSpecific)) == recipients
    ensures TicketsBy(ReceiveAll(recipients, text, senderName, roleSpecific)) ==
            if MentionsBug(text) then Testers(recipients) else []
    ensures NotifiedBy(ReceiveAll(recipients, text, senderName, roleSpecific)) == []
    ensures forall e :: e in ReceiveAll(recipients, text, senderName, roleSpecific) && e.Received? ==>
              e.senderName == senderName && e.text == text && e.roleSpecific == roleSpecific
  {
    ReceiveAllReceived(recipients, text, senderName, roleSpecific);
    ReceiveAllTickets(recipients, text, senderName, roleSpecific);
    ReceiveAllNotified(recipients, text, senderName, roleSpecific);
    ReceiveAllFields(recipients, text, senderName, roleSpecific);
  }

  lemma {:induction false} NotifyEachRecipients(recipients: seq<TeamMember>, text: string, k: EntryKind)
    ensures RecipientsOf(NotifyEach(recipients, text), k) == if k == NotifiedKind then recipients else []
    decreases |recipients|
  {
    if recipients != [] {
      var init := recipients[..|recipients| - 1];
      var m := recipients[|recipients| - 1];
      NotifyEachRecipients(init, text, k);
      NotificationRecipients(m, text, k);
      RecipientsOfAppend(NotifyEach(init, text), ReceiveNotification(m, text), k);
      assert init + [m] == recipients;
    }
  }

  lemma {:induction false} NotifyEachFields(recipients: seq<TeamMember>, text: string)
    ensures forall e :: e in NotifyEach(recipients, text) ==>
              (e.Notified? && e.text == text) || (e.StatusBoardUpdate? && e.recipient.role == ProductManager)
    decreases |recipients|
  {
    if recipients != [] {
      NotifyEachFields(recipients[..|recipients| - 1], text);
    }
  }

  /**
   * Every recipient of a notification is notified once, in order, and only
   * product managers do anything more (update the status board); nobody
   * receives a message or files a ticket.
   */
  lemma NotifyEachSpec(recipients: seq<TeamMember>, text: string)
    ensures NotifiedBy(NotifyEach(recipients, text)) == recipients
    ensures ReceivedBy(NotifyEach(recipients, text)) == [] && TicketsBy(NotifyEach(recipients, text)) == []
    ensures forall e :: e in NotifyEach(recipients, text) ==>
              (e.Notified? && e.text == text) || (e.StatusBoardUpdate? && e.recipient.role == ProductManager)
  {
    NotifyEachRecipients(recipients, text, ReceivedKind);
    NotifyEachRecipients(recipients, text, TicketKind);
    NotifyEachRecipients(recipients, text, NotifiedKind);
    NotifyEachFields(recipients, text);
  }

  /** The index of the first member whose name equals `name` ignoring case (List.Find). */
  function FindByName(ms: seq<TeamMember>, name: string): (r: Option<nat>)
    ensures r.Some? ==> r.value < |ms| && Text.EqualsIgnoreCase(ms[r.value].name, name) &&
                        forall j :: 0 <= j < r.value ==> !Text.EqualsIgnoreCase(ms[j].name, name)
    ensures r.None? ==> forall j :: 0 <= j < |ms| ==> !Text.EqualsIgnoreCase(ms[j].name, name)
    decreases |ms|
  {
    if ms == [] then None
    else if Text.EqualsIgnoreCase(ms[0].name, name) then Some(0)
    else match FindByName(ms[1..], name)
      case None => None
      case Some(i) => Some(i + 1)
  }

  /** The notification a sender gets when no member has the name. */
  function NotFoundText(receiverName: string): string {
    "User '" + receiverName + "' not found in this chat room."
  }

  /** The notification a sender gets when no other member has the role. */
  function NoRoleText(role: TeamRole): string {
    "No team members with role '" + RoleName(role) + "' found (excluding yourself)."
  }

  /** SendDirectMessage: the first member matching the name, or a notification back to the sender. */
  function DirectEntries(ms: seq<TeamMember>, text: string, sender: TeamMember, receiverName: string): (r: seq<Entry>)
    ensures FindByName(ms, receiverName).Some? ==>
              r == [ReceivedDirect(ms[FindByName(ms, receiverName).value], sender.name, text)]
    ensures FindByName(ms, receiverName).None? ==> r == ReceiveNotification(sender, NotFoundText(receiverName))
  {
    match FindByName(ms, receiverName)
    case Some(i) => ReceiveDirectMessage(ms[i], text, sender.name)
    case None => ReceiveNotification(sender, NotFoundText(receiverName))
  }

  /** SendMessageToRole: the role-specific message to every other member with the role, or the fallback notification. */
  function RoleEntries(ms: seq<TeamMember>, text: string, sender: TeamMember, role: TeamRole): seq<Entry> {
    var recipients := OthersWithRole(ms, sender, role);
    ReceiveAll(recipients, text, sender.name, true) +
    (if recipients == [] then ReceiveNotification(sender, NoRoleText(role)) else [])
  }

  lemma DirectRecipients(e: Entry, k: EntryKind)
    requires e.ReceivedDirect?
    ensures RecipientsOf([e], k) == []
  {
    assert [e][..0] == [];
  }

  /**
   * A direct message reaches only the first member whose name matches,
   * ignoring case (possibly the sender), and files no ticket; an unknown
   * name only notifies the sender.
   */
  lemma DirectMessageRouting(ms: seq<TeamMember>, text: string, sender: TeamMember, receiverName: string)
    ensures var r := DirectEntries(ms, text, sender, receiverName);
            ReceivedBy(r) == [] && TicketsBy(r) == [] &&
            (NotifiedBy(r) != [] <==> forall j :: 0 <= j < |ms| ==> !Text.EqualsIgnoreCase(ms[j].name, receiverName)) &&
            (NotifiedBy(r) != [] ==> NotifiedBy(r) == [sender])
  {
    var r := DirectEntries(ms, text, sender, receiverName);
    match FindByName(ms, receiverName)
    case Some(i) =>
      DirectRecipients(r[0], ReceivedKind);
      DirectRecipients(r[0], TicketKind);
      DirectRecipients(r[0], NotifiedKind);
    case None =>
      NotificationRecipients(sender, NotFoundText(receiverName), ReceivedKind);
      NotificationRecipients(sender, NotFoundText(receiverName), TicketKind);
      NotificationRecipients(sender, NotFoundText(receiverName), NotifiedKind);
  }

  /**
   * A role message reaches exactly the other members with the role, in
   * order, and the sender is notified exactly when there is none.
   */
  lemma RoleMessageRouting(ms: seq<TeamMember>, text: string, sender: TeamMember, role: TeamRole)
    ensures var r := RoleEntries(ms, text, sender, role);
            ReceivedBy(r) == OthersWithRole(ms, sender, role) &&
            (NotifiedBy(r) == if OthersWithRole(ms, sender, role) == [] then [sender] else []) &&
            TicketsBy(r) == if MentionsBug(text) then Testers(OthersWithRole(ms, sender, role)) else []
  {
    var recipients := OthersWithRole(ms, sender, role);
    var a := ReceiveAll(recipients, text, sender.name, true);
    var b := if recipients == [] then ReceiveNotification(sender, NoRoleText(role)) else [];
    ReceiveAllSpec(recipients, text, sender.name, true);
    ReceivedByAppend(a, b);
    if recipients == [] {
      NotificationRecipients(sender, NoRoleText(role), ReceivedKind);
      NotificationRecipients(sender, NoRoleText(role), TicketKind);
      NotificationRecipients(sender, NoRoleText(role), NotifiedKind);
    }
  }

  lemma OthersNext(ms: seq<TeamMember>, i: nat, sender: TeamMember)
    requires i < |ms|
    ensures Others(ms[..i + 1], sender) == Others(ms[..i], sender) + (if ms[i] != sender then [ms[i]] else [])
  {
    assert ms[..i + 1][..i] == ms[..i];
  }

  lemma OthersWithRoleNext(ms: seq<TeamMember>, i: nat, sender: TeamMember, role: TeamRole)
    requires i < |ms|
    ensures OthersWithRole(ms[..i + 1], sender, role) ==
            OthersWithRole(ms[..i], sender, role) + (if ms[i] != sender && ms[i].role == role then [ms[i]] else [])
  {
    assert ms[..i + 1][..i] == ms[..i];
  }

  /** One more recipient appends its entries to whatever trace precedes the message. */
  lemma AppendRecipient(before: seq<Entry>, rs: seq<TeamMember>, m: TeamMember, text: string, senderName: string, roleSpecific: bool)
    ensures before + ReceiveAll(rs + [m], text, senderName, roleSpecific) ==
            (before + ReceiveAll(rs, text, senderName, roleSpecific)) + ReceiveMessage(m, text, senderName, roleSpecific)
  {
    assert (rs + [m])[..|rs|] == rs;
  }

  /** One more notified member appends its entries to whatever trace precedes the notification. */
  lemma AppendNotified(before: seq<Entry>, rs: seq<TeamMember>, m: TeamMember, text: string)
    ensures before + NotifyEach(rs + [m], text) == (before + NotifyEach(rs, text)) + ReceiveNotification(m, text)
  {
    assert (rs + [m])[..|rs|] == rs;
  }

  // ---------------------------------------------------------------------------
  // The objects
  // ---------------------------------------------------------------------------

  /** TeamMember: a name, a role and the mediator it talks through. */
  class TeamMember {
    const name: string
    const role: TeamRole
    const mediator: TeamChatMediator

    constructor(name: string, role: TeamRole, mediator: TeamChatMediator)
      ensures this.name == name && this.role == role && this.mediator == mediator
    {
      this.name := name;
      this.role := role;
      this.mediator := mediator;
    }

    /** SendMessage: a broadcast through the mediator. */
    method SendMessage(message: string)
      modifies mediator`trace
      ensures mediator.trace == old(mediator.trace) + ReceiveAll(Others(mediator.teamMembers, this), message, name, false)
    {
      mediator.SendMessage(message, this);
    }

    /** SendDirectMessage: a direct message through the mediator. */
    method SendDirectMessage(receiverName: string, message: string)
      modifies mediator`trace
      ensures mediator.trace == old(mediator.trace) + DirectEntries(mediator.teamMembers, message, this, receiverName)
    {
      mediator.SendDirectMessage(message, this, receiverName);
    }

    /** SendMessageToRole: a role message through the mediator. */
    method SendMessageToRole(role: TeamRole, message: string)
      modifies mediator`trace
      ensures mediator.trace == old(mediator.trace) + RoleEntries(mediator.teamMembers, message, this, role)
    {
      mediator.SendMessageToRole(message, this, role);
    }

    /** NotifyTeam: a notification to everyone else through the mediator. */
    method NotifyTeam(message: string)
      modifies mediator`trace
      ensures mediator.trace == old(mediator.trace) + NotifyEach(Others(mediator.teamMembers, this), message)
    {
      mediator.NotifyAll(message, this);
    }
  }

  /** TeamChatMediator: the registered members and what they have printed. */
  class TeamChatMediator {
    /** The `_teamMembers` list. */
    var teamMembers: seq<TeamMember>
    /** Everything the members have received and done, in order. */
    var trace: seq<Entry>

    constructor()
      ensures teamMembers == [] && trace == []
    {
      teamMembers := [];
      trace := [];
    }

    /** RegisterColleague: appends the member; a member registered twice is listed twice. */
    method RegisterColleague(member: TeamMember)
      modifies this`teamMembers
      ensures teamMembers == old(teamMembers) + [member]
    {
      teamMembers := teamMembers + [member];
    }

    /** SendMessage: every member except the sender receives the message, in registration order. */
    method SendMessage(message: string, sender: TeamMember)
      modifies this`trace
      ensures trace == old(trace) + ReceiveAll(Others(teamMembers, sender), message, sender.name, false)
    {
      var i := 0;
      while i < |teamMembers|
        invariant 0 <= i <= |teamMembers|
        invariant trace == old(trace) + ReceiveAll(Others(teamMembers[..i], sender), message, sender.name, false)
      {
        var member := teamMembers[i];
        ghost var rs := Others(teamMembers[..i], sender);
        OthersNext(teamMembers, i, sender);
        if member != sender {
          AppendRecipient(old(trace), rs, member, message, sender.name, false);
          trace := trace + ReceiveMessage(member, message, sender.name, false);
          assert Others(teamMembers[..i + 1], sender) == rs + [member];
        } else {
          assert Others(teamMembers[..i + 1], sender) == rs;
        }
        i := i + 1;
      }
      assert teamMembers[..i] == teamMembers;
    }

    /** SendDirectMessage: the first member whose name matches ignoring case, or a notification to the sender. */
    method SendDirectMessage(message: string, sender: TeamMember, receiverName: string)
      modifies this`trace
      ensures trace == old(trace) + DirectEntries(teamMembers, message, sender, receiverName)
    {
      var receiver := FindByName(teamMembers, receiverName);
      if receiver.Some? {
        trace := trace + ReceiveDirectMessage(teamMembers[receiver.value], message, sender.name);
      } else {
        trace := trace + ReceiveNotification(sender, NotFoundText(receiverName));
      }
    }

    /**
     * SendMessageToRole: every other member with the role receives the
     * message as role-specific; if none did, the sender is notified.
     */
    method SendMessageToRole(message: string, sender: TeamMember, role: TeamRole)
      modifies this`trace
      ensures trace == old(trace) + RoleEntries(teamMembers, message, sender, role)
    {
      var messageSent := DeliverToRole(message, sender, role);
      ghost var sent := trace;
      if !messageSent {
        trace := trace + ReceiveNotification(sender, NoRoleText(role));
      }
      assert trace == sent + (if OthersWithRole(teamMembers, sender, role) == [] then ReceiveNotification(sender, NoRoleText(role)) else []);
    }

    /** The loop of SendMessageToRole: delivers to the other members with the role and reports whether any exists. */
    method DeliverToRole(message: string, sender: TeamMember, role: TeamRole) returns (messageSent: bool)
      modifies this`trace
      ensures trace == old(trace) + ReceiveAll(OthersWithRole(teamMembers, sender, role), message, sender.name, true)
      ensures messageSent <==> OthersWithRole(teamMembers, sender, role) != []
    {
      messageSent := false;
      var i := 0;
      while i < |teamMembers|
        invariant 0 <= i <= |teamMembers|
        invariant trace == old(trace) + ReceiveAll(OthersWithRole(teamMembers[..i], sender, role), message, sender.name, true)
        invariant messageSent <==> OthersWithRole(teamMembers[..i], sender, role) != []
      {
        var member := teamMembers[i];
        ghost var rs := OthersWithRole(teamMembers[..i], sender, role);
        OthersWithRoleNext(teamMembers, i, sender, role);
        if member != sender && member.role == role {
          AppendRecipient(old(trace), rs, member, message, sender.name, true);
          trace := trace + ReceiveMessage(member, message, sender.name, true);
          messageSent := true;
          assert OthersWithRole(teamMembers[..i + 1], sender, role) == rs + [member];
        } else {
          assert OthersWithRole(teamMembers[..i + 1], sender, role) == rs;
        }
        i := i + 1;
      }
      assert teamMembers[..i] == teamMembers;
    }

    /** NotifyAll: every member except the sender is notified, in registration order. */
    method NotifyAll(message: string, sender: TeamMember)
      modifies this`trace
      ensures trace == old(trace) + NotifyEach(Others(teamMembers, sender), message)
    {
      var i := 0;
      while i < |teamMembers|
        invariant 0 <= i <= |teamMembers|
        invariant trace == old(trace) + NotifyEach(Others(teamMembers[..i], sender), message)
      {
        var member := teamMembers[i];
        ghost var rs := Others(teamMembers[..i], sender);
        OthersNext(teamMembers, i, sender);
        if member != sender {
          AppendNotified(old(trace), rs, member, message);
          trace := trace + ReceiveNotification(member, message);
          assert Others(teamMembers[..i + 1], sender) == rs + [member];
        } else {
          assert Others(teamMembers[..i + 1], sender) == rs;
        }
        i := i + 1;
      }
      assert teamMembers[..i] == teamMembers;
    }
  }
}
