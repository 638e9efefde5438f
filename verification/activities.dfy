/**
 * The activities ETL: how tasks, calls, notes and events are classified, how each lead's
 * event history is scanned for replies within 24 hours, which activity records are kept,
 * and the per-user and team rates derived from the daily aggregates.
 */
module Activities {
  import opened Wrappers
  import opened Text
  import opened Sorting
  import opened Rates
  import Crm

  // ---------------------------------------------------------------------------
  // Task categories
  // ---------------------------------------------------------------------------

  /** The category stored for a task: 'contact', 'call', 'meeting', 'email', 'whatsapp', 'follow_up', 'proposal' or 'other'. */
  datatype TaskCategory =
    | ContactTask | CallTask | MeetingTask | EmailTask | WhatsappTask | FollowUpTask | ProposalTask | OtherTask

  /** The Kommo task-type ids 1 to 5; any other id, or none, is 'other'. */
  function BaseCategory(taskType: Option<int>): (r: TaskCategory)
    ensures r == OtherTask <==> !(taskType.Some? && 1 <= taskType.value <= 5)
  {
    if taskType == Some(1) then ContactTask
    else if taskType == Some(2) then CallTask
    else if taskType == Some(3) then MeetingTask
    else if taskType == Some(4) then EmailTask
    else if taskType == Some(5) then FollowUpTask
    else OtherTask
  }

  const CallWords: seq<string> := ["ligar", "call", "telefone", "contato telefônico"]
  const MeetingWords: seq<string> := ["reunião", "meeting", "apresentação", "demo"]
  const EmailWords: seq<string> := ["email", "e-mail", "enviar"]
  const WhatsappWords: seq<string> := ["whatsapp", "wpp", "zap", "mensagem"]
  const FollowUpWords: seq<string> := ["follow", "retorno", "acompanhar"]
  const ProposalWords: seq<string> := ["proposta", "orçamento", "contrato"]

  /** The category the lower-cased text asks for, testing the keyword lists in their fixed order. */
  function KeywordCategory(t: string): Option<TaskCategory> {
    if ContainsAny(t, CallWords) then Some(CallTask)
    else if ContainsAny(t, MeetingWords) then Some(MeetingTask)
    else if ContainsAny(t, EmailWords) then Some(EmailTask)
    else if ContainsAny(t, WhatsappWords) then Some(WhatsappTask)
    else if ContainsAny(t, FollowUpWords) then Some(FollowUpTask)
    else if ContainsAny(t, ProposalWords) then Some(ProposalTask)
    else None
  }

  /** `categorize_task_activity`: a keyword in the text wins over the task type. */
  function CategorizeTaskActivity(taskType: Option<int>, text: string): (r: TaskCategory)
    ensures r == OtherTask ==> !(taskType.Some? && 1 <= taskType.value <= 5)
    ensures r == ContactTask ==> taskType == Some(1)
    ensures ContainsAny(Lower(text), CallWords) ==> r == CallTask
    ensures KeywordCategory(Lower(text)).None? ==> r == BaseCategory(taskType)
  {
    match KeywordCategory(Lower(text))
    case Some(c) => c
    case None => BaseCategory(taskType)
  }

  /** Once the text holds a keyword, the task type no longer matters. */
  lemma KeywordOverridesType(t1: Option<int>, t2: Option<int>, text: string)
    requires KeywordCategory(Lower(text)).Some?
    ensures CategorizeTaskActivity(t1, text) == CategorizeTaskActivity(t2, text)
  {
  }

  /**
   * The keyword lists are tried in the order call, meeting, email, whatsapp, follow_up:
   * each category is chosen exactly when one of its words occurs and no word of an earlier list does.
   */
  lemma KeywordRungs(taskType: Option<int>, text: string)
    ensures var t := Lower(text); var r := CategorizeTaskActivity(taskType, text);
      (ContainsAny(t, CallWords) ==> r == CallTask)
      && (!ContainsAny(t, CallWords) ==>
            (r == MeetingTask <==> ContainsAny(t, MeetingWords) || (KeywordCategory(t).None? && taskType == Some(3))))
      && (!ContainsAny(t, CallWords) && !ContainsAny(t, MeetingWords) ==>
            (r == EmailTask <==> ContainsAny(t, EmailWords) || (KeywordCategory(t).None? && taskType == Some(4))))
      && (!ContainsAny(t, CallWords) && !ContainsAny(t, MeetingWords) && !ContainsAny(t, EmailWords) ==>
            (r == WhatsappTask <==> ContainsAny(t, WhatsappWords)))
      && (!ContainsAny(t, CallWords) && !ContainsAny(t, MeetingWords) && !ContainsAny(t, EmailWords)
          && !ContainsAny(t, WhatsappWords) ==>
            (r == FollowUpTask <==> ContainsAny(t, FollowUpWords) || (KeywordCategory(t).None? && taskType == Some(5))))
  {
  }

  /** 'proposal' is chosen exactly when a proposal word occurs and no word of an earlier list does. */
  lemma ProposalIsLastResort(taskType: Option<int>, text: string)
    ensures CategorizeTaskActivity(taskType, text) == ProposalTask <==>
      (var t := Lower(text);
       ContainsAny(t, ProposalWords) && !ContainsAny(t, CallWords) && !ContainsAny(t, MeetingWords)
       && !ContainsAny(t, EmailWords) && !ContainsAny(t, WhatsappWords) && !ContainsAny(t, FollowUpWords))
  {
  }

  /** Every keyword has at least three letters, so a shorter text is categorised by its type alone. */
  lemma {:induction false} ShortTextUsesType(taskType: Option<int>, text: string)
    requires |text| < 3
    ensures CategorizeTaskActivity(taskType, text) == BaseCategory(taskType)
  {
    var t := Lower(text);
    ContainsNoneLonger(t, CallWords);
    ContainsNoneLonger(t, MeetingWords);
    ContainsNoneLonger(t, EmailWords);
    ContainsNoneLonger(t, WhatsappWords);
    ContainsNoneLonger(t, FollowUpWords);
    ContainsNoneLonger(t, ProposalWords);
  }

  // ---------------------------------------------------------------------------
  // Contact types
  // ---------------------------------------------------------------------------

  /**
   * The stored contact type: ligacao_feita, ligacao_recebida, ligacao, email, whatsapp, sms,
   * nota, reuniao_agendada, ligacao_agendada, tarefa, followup, evento, outro and erro.
   */
  datatype ContactType =
    | CallMade | CallReceived | CallPlain | EmailContact | WhatsappContact | SmsContact | NoteContact
    | MeetingScheduled | CallScheduled | TaskContact | FollowUpContact | EventContact | OtherContact | ErrorContact

  /** The kind of API object being classified. */
  datatype ActivityKind = CallKind | NoteKind | TaskKind | EventKind | OtherKind

  /**
   * The keys the classifier reads from an activity. `params` is the object's `params`
   * already rendered by `str()`; `text` keeps the difference between a missing key and a null.
   */
  datatype ActivityData = ActivityData(
    callStatus: Option<string>,
    noteType: Option<string>,
    params: Slot<string>,
    taskType: Option<int>,
    text: Slot<string>,
    eventType: Option<string>)

  /** `str(d.get('params', {}))`: a missing key renders as "{}", a null as "None". */
  function ParamsText(d: ActivityData): string {
    match d.params
    case Absent => "{}"
    case Null => "None"
    case Present(s) => s
  }

  function NoteContactType(d: ActivityData): ContactType {
    var p := Lower(ParamsText(d));
    if Contains(p, "email") || d.noteType == Some("email_out") then EmailContact
    else if Contains(p, "whatsapp") || Contains(p, "whats") then WhatsappContact
    else if Contains(p, "sms") then SmsContact
    else NoteContact
  }

  /** The task branch; a null text fails on `.lower()` before the type is looked at. */
  function TaskContactType(d: ActivityData): ContactType {
    match d.text.Get("")
    case None => ErrorContact
    case Some(raw) =>
      var t := Lower(raw);
      if d.taskType == Some(1) then MeetingScheduled
      else if d.taskType == Some(2) then CallScheduled
      else if d.taskType == Some(3) then EmailContact
      else if d.taskType == Some(4) then TaskContact
      else if d.taskType == Some(5) then FollowUpContact
      else if Contains(t, "reunião") || Contains(t, "meeting") then MeetingScheduled
      else if Contains(t, "ligar") || Contains(t, "call") then CallScheduled
      else if Contains(t, "email") || Contains(t, "e-mail") then EmailContact
      else if Contains(t, "follow") || Contains(t, "acompanhar") then FollowUpContact
      else TaskContact
  }

  /** The event branch; a missing type fails the substring test, and the type is not lower-cased. */
  function EventContactType(d: ActivityData): ContactType {
    match d.eventType
    case None => ErrorContact
    case Some(t) =>
      if Contains(t, "call") then CallPlain
      else if Contains(t, "sms") then SmsContact
      else if Contains(t, "note") then NoteContact
      else EventContact
  }

  /** `classify_contact_type`: each kind has its own range of types, and only a failed lookup gives 'erro'. */
  function ClassifyContactType(d: ActivityData, kind: ActivityKind): (r: ContactType)
    ensures kind == CallKind ==> r in {CallMade, CallReceived, CallPlain}
    ensures kind == NoteKind ==> r in {EmailContact, WhatsappContact, SmsContact, NoteContact}
    ensures kind == TaskKind ==>
      r in {MeetingScheduled, CallScheduled, EmailContact, TaskContact, FollowUpContact, ErrorContact}
    ensures kind == EventKind ==> r in {CallPlain, SmsContact, NoteContact, EventContact, ErrorContact}
    ensures kind == OtherKind <==> r == OtherContact
    ensures r == ErrorContact <==> (kind == TaskKind && d.text.Null?) || (kind == EventKind && d.eventType.None?)
    ensures r == CallMade <==> kind == CallKind && d.callStatus == Some("outgoing")
    ensures kind == NoteKind && d.noteType == Some("email_out") ==> r == EmailContact
    ensures kind == NoteKind ==>
      var p := Lower(ParamsText(d));
      (r == EmailContact <==> Contains(p, "email") || d.noteType == Some("email_out"))
      && (r == SmsContact <==> !Contains(p, "email") && d.noteType != Some("email_out") && !Contains(p, "whatsapp")
                               && !Contains(p, "whats") && Contains(p, "sms"))
      && (r == NoteContact <==> !Contains(p, "email") && d.noteType != Some("email_out") && !Contains(p, "whatsapp")
                                && !Contains(p, "whats") && !Contains(p, "sms"))
    ensures kind == EventKind ==>
      (r == CallPlain <==> d.eventType.Some? && Contains(d.eventType.value, "call"))
      && (r == SmsContact <==> d.eventType.Some? && !Contains(d.eventType.value, "call") && Contains(d.eventType.value, "sms"))
      && (r == NoteContact <==> d.eventType.Some? && !Contains(d.eventType.value, "call")
                                && !Contains(d.eventType.value, "sms") && Contains(d.eventType.value, "note"))
      && (r == EventContact <==> d.eventType.Some? && !Contains(d.eventType.value, "call")
                                 && !Contains(d.eventType.value, "sms") && !Contains(d.eventType.value, "note"))
    ensures kind == TaskKind && !d.text.Null? ==>
      var t := Lower(d.text.Get("").value);
      r == TaskContact <==>
        d.taskType == Some(4)
        || (!(d.taskType.Some? && 1 <= d.taskType.value <= 5)
            && !Contains(t, "reunião") && !Contains(t, "meeting") && !Contains(t, "ligar") && !Contains(t, "call")
            && !Contains(t, "email") && !Contains(t, "e-mail") && !Contains(t, "follow") && !Contains(t, "acompanhar"))
  {
    match kind
    case CallKind =>
      if d.callStatus == Some("outgoing") then CallMade
      else if d.callStatus == Some("incoming") then CallReceived
      else CallPlain
    case NoteKind => NoteContactType(d)
    case TaskKind => TaskContactType(d)
    case EventKind => EventContactType(d)
    case OtherKind => OtherContact
  }

  /** A task type from 1 to 5 decides the contact type whatever the text says, as long as the text is not null. */
  lemma TaskTypeBeforeText(d1: ActivityData, d2: ActivityData)
    requires d1.taskType == d2.taskType && d1.taskType.Some? && 1 <= d1.taskType.value <= 5
    requires !d1.text.Null? && !d2.text.Null?
    ensures ClassifyContactType(d1, TaskKind) == ClassifyContactType(d2, TaskKind)
  {
  }

  // ---------------------------------------------------------------------------
  // Response metrics
  // ---------------------------------------------------------------------------

  /** One event as the response scan reads it. A missing `created_at` is taken as 0 before it gets here. */
  datatype ActivityEvent = ActivityEvent(
    entityId: Option<int>,
    entityType: Option<string>,
    createdAt: int,
    createdBy: Option<int>,
    data: ActivityData)

  function At(e: ActivityEvent): int {
    e.createdAt
  }

  /** Every event of the scan is classified as an 'event'. */
  function TypeOf(e: ActivityEvent): ContactType {
    ClassifyContactType(e.data, EventKind)
  }

  /** The types counted as a contact sent: ligacao_feita, email, whatsapp or sms. */
  predicate IsContact(c: ContactType) {
    c == CallMade || c == EmailContact || c == WhatsappContact || c == SmsContact
  }

  /** The types counted as a reply: ligacao_recebida or nota. */
  predicate IsReply(c: ContactType) {
    c == CallReceived || c == NoteContact
  }

  /** Events are only ever classified as 'event', so sms is the one contact type that can occur and nota the one reply type. */
  lemma EventContactsAreSmsOnly(e: ActivityEvent)
    ensures IsContact(TypeOf(e)) <==> TypeOf(e) == SmsContact
    ensures IsReply(TypeOf(e)) <==> TypeOf(e) == NoteContact
  {
  }

  /** Whether `r` answers the contact `c`: a reply type from somebody else. */
  predicate Answers(r: ActivityEvent, c: ActivityEvent) {
    IsReply(TypeOf(r)) && r.createdBy != c.createdBy
  }

  /**
   * The seconds until the first answer to contact `i`, looking from position `j` on and
   * stopping at the first event more than 86400 seconds after the contact.
   */
  function ReplyFrom(s: seq<ActivityEvent>, i: nat, j: nat): Option<int>
    requires i < |s|
    decreases |s| - j
  {
    if j >= |s| then None
    else if s[j].createdAt - s[i].createdAt > 86400 then None
    else if Answers(s[j], s[i]) then Some(s[j].createdAt - s[i].createdAt)
    else ReplyFrom(s, i, j + 1)
  }

  /** A reply found by the scan is a later answer within the window, with nothing earlier cutting the scan short. */
  lemma {:induction false} ReplyFromWitness(s: seq<ActivityEvent>, i: nat, j: nat) returns (k: nat)
    requires i < |s| && ReplyFrom(s, i, j).Some?
    ensures j <= k < |s|
    ensures Answers(s[k], s[i])
    ensures ReplyFrom(s, i, j).value == s[k].createdAt - s[i].createdAt <= 86400
    ensures forall m :: j <= m < k ==> !Answers(s[m], s[i]) && s[m].createdAt - s[i].createdAt <= 86400
    decreases |s| - j
  {
    if Answers(s[j], s[i]) {
      k := j;
    } else {
      k := ReplyFromWitness(s, i, j + 1);
    }
  }

  /** On a list sorted by time, no reply means nobody else answered within 24 hours after position `j`. */
  lemma {:induction false} NoReplyWithinDay(s: seq<ActivityEvent>, i: nat, j: nat)
    requires SortedByKey(s, At)
    requires i < |s| && ReplyFrom(s, i, j).None?
    ensures forall m :: j <= m < |s| && s[m].createdAt - s[i].createdAt <= 86400 ==> !Answers(s[m], s[i])
    decreases |s| - j
  {
    if j < |s| {
      if s[j].createdAt - s[i].createdAt > 86400 {
        forall m | j <= m < |s|
          ensures s[m].createdAt - s[i].createdAt > 86400
        {
          assert At(s[j]) <= At(s[m]);
        }
      } else {
        NoReplyWithinDay(s, i, j + 1);
      }
    }
  }

  /** On a sorted list, a reply after the contact comes between 0 and 86400 seconds later. */
  lemma ReplyDelayBounded(s: seq<ActivityEvent>, i: nat)
    requires SortedByKey(s, At)
    requires i < |s| && ReplyFrom(s, i, i + 1).Some?
    ensures 0 <= ReplyFrom(s, i, i + 1).value <= 86400
  {
    var k := ReplyFromWitness(s, i, i + 1);
    assert At(s[i]) <= At(s[k]);
  }

  /** The counters of one lead's scan. */
  datatype Tally = Tally(contacts: nat, responses: nat, times: seq<real>)

  function Hours(seconds: int): real {
    seconds as real / 3600.0
  }

  /** The counters after scanning the first `n` events of the sorted list. */
  function TallyUpTo(s: seq<ActivityEvent>, n: nat): Tally
    requires n <= |s|
  {
    if n == 0 then Tally(0, 0, [])
    else
      var t := TallyUpTo(s, n - 1);
      if !IsContact(TypeOf(s[n - 1])) then t
      else match ReplyFrom(s, n - 1, n)
        case None => t.(contacts := t.contacts + 1)
        case Some(d) => Tally(t.contacts + 1, t.responses + 1, t.times + [Hours(d)])
  }

  /** Each contact gets at most one reply, and each reply records one time. */
  lemma {:induction false} TallyShape(s: seq<ActivityEvent>, n: nat)
    requires n <= |s|
    ensures TallyUpTo(s, n).responses == |TallyUpTo(s, n).times| <= TallyUpTo(s, n).contacts
  {
    if n > 0 {
      TallyShape(s, n - 1);
    }
  }

  /** On a sorted list every recorded response time lies between 0 and 24 hours. */
  lemma TallyTimesWithinDay(s: seq<ActivityEvent>, n: nat)
    requires SortedByKey(s, At)
    requires n <= |s|
    ensures forall k :: 0 <= k < |TallyUpTo(s, n).times| ==> 0.0 <= TallyUpTo(s, n).times[k] <= 24.0
  {
    forall i | 0 <= i < n
      ensures DelayWithinDay(s, i)
    {
      if ReplyFrom(s, i, i + 1).Some? {
        ReplyDelayBounded(s, i);
      }
    }
    TallyTimesBounded(s, n);
  }

  /** The reply to contact `i`, if any, comes within a day. */
  predicate DelayWithinDay(s: seq<ActivityEvent>, i: nat)
    requires i < |s|
  {
    ReplyFrom(s, i, i + 1).Some? ==> 0 <= ReplyFrom(s, i, i + 1).value <= 86400
  }

  predicate AllWithinDay(xs: seq<real>) {
    forall k :: 0 <= k < |xs| ==> 0.0 <= xs[k] <= 24.0
  }

  /** Times stay within a day as long as every reply delay up to `n` does. */
  lemma {:induction false} TallyTimesBounded(s: seq<ActivityEvent>, n: nat)
    requires n <= |s|
    requires forall i :: 0 <= i < n ==> DelayWithinDay(s, i)
    ensures AllWithinDay(TallyUpTo(s, n).times)
  {
    if n > 0 {
      TallyTimesBounded(s, n - 1);
      var t := TallyUpTo(s, n - 1);
      assert DelayWithinDay(s, n - 1);
      if IsContact(TypeOf(s[n - 1])) && ReplyFrom(s, n - 1, n).Some? {
        var d := ReplyFrom(s, n - 1, n).value;
        HoursWithinDay(d);
        assert TallyUpTo(s, n).times == t.times + [Hours(d)];
        WithinDayAppend(t.times, Hours(d));
      } else {
        assert TallyUpTo(s, n).times == t.times;
      }
    }
  }

  lemma WithinDayAppend(xs: seq<real>, x: real)
    requires AllWithinDay(xs) && 0.0 <= x <= 24.0
    ensures AllWithinDay(xs + [x])
  {
    assert forall k :: 0 <= k < |xs| ==> (xs + [x])[k] == xs[k];
  }

  lemma HoursWithinDay(d: int)
    requires 0 <= d <= 86400
    ensures 0.0 <= Hours(d) <= 24.0
  {
  }

  /** The number of sms events among the first `n`. */
  function SmsCount(s: seq<ActivityEvent>, n: nat): nat
    requires n <= |s|
  {
    if n == 0 then 0 else SmsCount(s, n - 1) + (if TypeOf(s[n - 1]) == SmsContact then 1 else 0)
  }

  /** The contacts counted are exactly the sms events. */
  lemma {:induction false} ContactsAreSmsEvents(s: seq<ActivityEvent>, n: nat)
    requires n <= |s|
    ensures TallyUpTo(s, n).contacts == SmsCount(s, n)
  {
    if n > 0 {
      ContactsAreSmsEvents(s, n - 1);
      EventContactsAreSmsOnly(s[n - 1]);
    }
  }

  /** The inner loop: look for the first answer to contact `i`. */
  method FindReply(s: seq<ActivityEvent>, i: nat) returns (r: Option<int>)
    requires i < |s|
    ensures r == ReplyFrom(s, i, i + 1)
  {
    var j := i + 1;
    while j < |s|
      invariant i + 1 <= j <= |s|
      invariant ReplyFrom(s, i, j) == ReplyFrom(s, i, i + 1)
      decreases |s| - j
    {
      if s[j].createdAt - s[i].createdAt > 86400 {
        return None;
      }
      if Answers(s[j], s[i]) {
        return Some(s[j].createdAt - s[i].createdAt);
      }
      j := j + 1;
    }
    return None;
  }

  /** The outer loop over one lead's sorted events. */
  method ScanLead(s: seq<ActivityEvent>) returns (contacts: nat, responses: nat, times: seq<real>)
    ensures Tally(contacts, responses, times) == TallyUpTo(s, |s|)
  {
    contacts, responses, times := 0, 0, [];
    var i := 0;
    while i < |s|
      invariant 0 <= i <= |s|
      invariant Tally(contacts, responses, times) == TallyUpTo(s, i)
    {
      contacts, responses, times := ScanEvent(s, i, contacts, responses, times);
      i := i + 1;
    }
  }

  /** One turn of the outer loop: a contact is counted and its reply looked for. */
  method ScanEvent(s: seq<ActivityEvent>, i: nat, contacts: nat, responses: nat, times: seq<real>)
    returns (contacts': nat, responses': nat, times': seq<real>)
    requires i < |s| && Tally(contacts, responses, times) == TallyUpTo(s, i)
    ensures Tally(contacts', responses', times') == TallyUpTo(s, i + 1)
  {
    contacts', responses', times' := contacts, responses, times;
    if IsContact(TypeOf(s[i])) {
      contacts' := contacts + 1;
      var reply := FindReply(s, i);
      if reply.Some? {
        responses' := responses + 1;
        times' := times + [Hours(reply.value)];
      }
    }
  }

  function Sum(xs: seq<real>): real {
    if xs == [] then 0.0 else Sum(xs[..|xs| - 1]) + xs[|xs| - 1]
  }

  lemma {:induction false} SumWithin(xs: seq<real>, hi: real)
    requires forall k :: 0 <= k < |xs| ==> 0.0 <= xs[k] <= hi
    ensures 0.0 <= Sum(xs) <= hi * |xs| as real
  {
    if xs != [] {
      SumWithin(xs[..|xs| - 1], hi);
    }
  }

  /** A lead's stored response metrics. */
  datatype LeadResponse = LeadResponse(
    contactsSent: nat,
    responsesReceived: nat,
    responseRate: real,
    avgResponseHours: real)

  /** The rate in percent and the mean response time, each 0 when there is nothing to divide by. */
  function Summarize(t: Tally): LeadResponse {
    LeadResponse(t.contacts, t.responses,
      Percent(t.responses as real, t.contacts as real),
      Ratio(Sum(t.times), |t.times| as real))
  }

  function LeadMetrics(s: seq<ActivityEvent>): LeadResponse {
    Summarize(TallyUpTo(s, |s|))
  }

  /** The bounds every lead's metrics keep once its events are sorted. */
  predicate WellFormed(m: LeadResponse) {
    && m.responsesReceived <= m.contactsSent
    && 0.0 <= m.responseRate <= 100.0
    && (m.contactsSent == 0 ==> m.responseRate == 0.0)
    && (m.responsesReceived == 0 ==> m.avgResponseHours == 0.0)
    && 0.0 <= m.avgResponseHours <= 24.0
    && (m.responseRate > 0.0 <==> m.responsesReceived > 0)
  }

  lemma MeanWithinDay(xs: seq<real>)
    requires forall k :: 0 <= k < |xs| ==> 0.0 <= xs[k] <= 24.0
    ensures 0.0 <= Ratio(Sum(xs), |xs| as real) <= 24.0
  {
    SumWithin(xs, 24.0);
  }

  lemma RateSignal(num: nat, den: nat)
    requires num <= den
    ensures Percent(num as real, den as real) > 0.0 <==> num > 0
  {
    var r := Percent(num as real, den as real);
    if den > 0 && r <= 0.0 {
      assert r * den as real <= 0.0;
    }
  }

  /** On a sorted list the metrics are well formed. */
  lemma LeadMetricsWellFormed(s: seq<ActivityEvent>)
    requires SortedByKey(s, At)
    ensures WellFormed(LeadMetrics(s))
  {
    var t := TallyUpTo(s, |s|);
    TallyShape(s, |s|);
    TallyTimesWithinDay(s, |s|);
    MeanWithinDay(t.times);
    RateSignal(t.responses, t.contacts);
  }

  /** Only activities on leads take part: entity type 'leads' or 'lead'. */
  predicate OfLead(e: ActivityEvent) {
    e.entityType == Some("leads") || e.entityType == Some("lead")
  }

  /** One lead's activities in their original order. */
  function LeadActivities(acts: seq<ActivityEvent>, k: Option<int>): seq<ActivityEvent>
    decreases |acts|
  {
    if acts == [] then []
    else
      var e := acts[|acts| - 1];
      LeadActivities(acts[..|acts| - 1], k) + (if OfLead(e) && e.entityId == k then [e] else [])
  }

  /** The leads that have at least one activity. */
  function LeadKeys(acts: seq<ActivityEvent>): set<Option<int>>
    decreases |acts|
  {
    if acts == [] then {}
    else
      var e := acts[|acts| - 1];
      LeadKeys(acts[..|acts| - 1]) + (if OfLead(e) then {e.entityId} else {})
  }

  /** A lead is a key exactly when it has activities, and all of its activities are on leads. */
  lemma {:induction false} LeadKeysHaveActivities(acts: seq<ActivityEvent>, k: Option<int>)
    ensures k in LeadKeys(acts) <==> LeadActivities(acts, k) != []
    ensures forall e :: e in LeadActivities(acts, k) ==> e in acts && OfLead(e) && e.entityId == k
    decreases |acts|
  {
    if acts != [] {
      var init := acts[..|acts| - 1];
      LeadKeysHaveActivities(init, k);
      assert forall e :: e in init ==> e in acts;
    }
  }

  /** The metrics the source stores for lead `k`: its activities sorted by time, then scanned. */
  function ResponseOf(acts: seq<ActivityEvent>, k: Option<int>): LeadResponse {
    LeadMetrics(SortByKey(LeadActivities(acts, k), At))
  }

  /** The grouping loop. */
  method GroupLeadActivities(acts: seq<ActivityEvent>) returns (groups: map<Option<int>, seq<ActivityEvent>>)
    ensures groups.Keys == LeadKeys(acts)
    ensures forall k :: k in groups ==> groups[k] == LeadActivities(acts, k)
  {
    groups := map[];
    var i := 0;
    while i < |acts|
      invariant 0 <= i <= |acts|
      invariant groups.Keys == LeadKeys(acts[..i])
      invariant forall k :: k in groups ==> groups[k] == LeadActivities(acts[..i], k)
    {
      var e := acts[i];
      assert acts[..i + 1][..i] == acts[..i];
      forall k | k !in groups
        ensures LeadActivities(acts[..i], k) == []
      {
        LeadKeysHaveActivities(acts[..i], k);
      }
      if OfLead(e) {
        var group := if e.entityId in groups then groups[e.entityId] else [];
        groups := groups[e.entityId := group + [e]];
      }
      i := i + 1;
    }
    assert acts[..i] == acts;
  }

  method SortActivities(group: seq<ActivityEvent>) returns (sorted: seq<ActivityEvent>)
    ensures sorted == SortByKey(group, At)
  {
    var a := new ActivityEvent[|group|](k requires 0 <= k < |group| => group[k]);
    assert a[..] == group;
    SortInPlace(a, At);
    sorted := a[..];
  }

  /** `calculate_response_metrics`: one entry per lead with activities, each well formed. */
  method CalculateResponseMetrics(acts: seq<ActivityEvent>) returns (metrics: map<Option<int>, LeadResponse>)
    ensures metrics.Keys == LeadKeys(acts)
    ensures forall k :: k in metrics ==> metrics[k] == ResponseOf(acts, k)
    ensures forall k :: k in metrics ==> WellFormed(metrics[k])
  {
    var groups := GroupLeadActivities(acts);
    metrics := map[];
    var pending := groups.Keys;
    while pending != {}
      invariant pending <= groups.Keys
      invariant metrics.Keys == groups.Keys - pending
      invariant forall k :: k in metrics ==> metrics[k] == ResponseOf(acts, k)
      invariant forall k :: k in metrics ==> WellFormed(metrics[k])
      decreases pending
    {
      var k :| k in pending;
      var sorted := SortActivities(groups[k]);
      var contacts, responses, times := ScanLead(sorted);
      SortByKeyCorrect(groups[k], At);
      LeadMetricsWellFormed(sorted);
      metrics := metrics[k := Summarize(Tally(contacts, responses, times))];
      pending := pending - {k};
    }
  }

  /** The leads for which a response record is written: those with at least one contact sent. */
  function Reported(metrics: map<Option<int>, LeadResponse>): (r: map<Option<int>, LeadResponse>)
    ensures forall k :: k in r <==> k in metrics && metrics[k].contactsSent > 0
    ensures forall k :: k in r ==> r[k] == metrics[k]
  {
    map k | k in metrics && metrics[k].contactsSent > 0 :: metrics[k]
  }

  /** A reported lead's record is marked successful (rate above 0) exactly when a reply arrived. */
  lemma ReportedSuccess(acts: seq<ActivityEvent>, k: Option<int>)
    requires k in LeadKeys(acts)
    ensures ResponseOf(acts, k).responseRate > 0.0 <==> ResponseOf(acts, k).responsesReceived > 0
  {
    SortByKeyCorrect(LeadActivities(acts, k), At);
    LeadMetricsWellFormed(SortByKey(LeadActivities(acts, k), At));
  }

  // ---------------------------------------------------------------------------
  // Activity records
  // ---------------------------------------------------------------------------

  /**
   * A call or note as the transform reads it. `note` is a call's `note` object
   * (its text when it is an object); notes leave it `Absent`.
   */
  datatype Row = Row(responsibleUser: Option<int>, data: ActivityData, note: Slot<string>)

  /** `call.get('note', {}).get('text', '')` raises on a `null` note, and the call is skipped. */
  predicate CallBuilds(c: Row) {
    !c.note.Null?
  }

  /**
   * A note is kept when it has a responsible user; `note.get('params', {}).get('text', '')`
   * then raises on `null` params, and the note is skipped.
   */
  predicate NoteBuilds(n: Row) {
    Crm.Truthy(n.responsibleUser) && !n.data.params.Null?
  }

  /** A task with its deadline and completion time. */
  datatype TaskRow = TaskRow(
    responsibleUser: Option<int>,
    completeTill: Option<int>,
    completedAt: Option<int>,
    isCompleted: bool,
    data: ActivityData)

  /** The part of an activity record the model keeps. `onTime` is only set on task records. */
  datatype ActivityRecord = ActivityRecord(
    kind: ActivityKind,
    contactType: ContactType,
    userId: Option<int>,
    successful: bool,
    onTime: Option<bool>)

  /** `is_completed_on_time`: both times are set and non-zero, and completion is not after the deadline. */
  function OnTime(t: TaskRow): (r: bool)
    ensures r ==> Crm.Truthy(t.completeTill) && Crm.Truthy(t.completedAt)
    ensures Crm.Truthy(t.completeTill) && Crm.Truthy(t.completedAt) ==>
      (r <==> t.completedAt.value <= t.completeTill.value)
  {
    if Crm.Truthy(t.completeTill) && Crm.Truthy(t.completedAt) then t.completedAt.value <= t.completeTill.value
    else false
  }

  function CallRecord(c: Row): ActivityRecord {
    ActivityRecord(CallKind, ClassifyContactType(c.data, CallKind), c.responsibleUser,
      c.data.callStatus == Some("answered"), None)
  }

  function TaskRecord(t: TaskRow): ActivityRecord {
    ActivityRecord(TaskKind, ClassifyContactType(t.data, TaskKind), t.responsibleUser, t.isCompleted, Some(OnTime(t)))
  }

  function NoteRecord(n: Row): ActivityRecord {
    ActivityRecord(NoteKind, ClassifyContactType(n.data, NoteKind), n.responsibleUser, true, None)
  }

  function EventRecord(e: ActivityEvent): ActivityRecord {
    ActivityRecord(EventKind, TypeOf(e), e.createdBy, true, None)
  }

  function CallRecords(cs: seq<Row>): seq<ActivityRecord> {
    if cs == [] then []
    else
      var c := cs[|cs| - 1];
      CallRecords(cs[..|cs| - 1]) + (if CallBuilds(c) then [CallRecord(c)] else [])
  }

  function TaskRecords(ts: seq<TaskRow>): seq<ActivityRecord> {
    if ts == [] then []
    else
      var t := ts[|ts| - 1];
      TaskRecords(ts[..|ts| - 1]) + (if Crm.Truthy(t.responsibleUser) then [TaskRecord(t)] else [])
  }

  function NoteRecords(ns: seq<Row>): seq<ActivityRecord> {
    if ns == [] then []
    else
      var n := ns[|ns| - 1];
      NoteRecords(ns[..|ns| - 1]) + (if NoteBuilds(n) then [NoteRecord(n)] else [])
  }

  function EventRecords(es: seq<ActivityEvent>): seq<ActivityRecord> {
    if es == [] then []
    else
      var e := es[|es| - 1];
      EventRecords(es[..|es| - 1]) + (if Crm.Truthy(e.createdBy) then [EventRecord(e)] else [])
  }

  /** A task record exists exactly for each task with a responsible user. */
  lemma {:induction false} TaskRecordsExact(ts: seq<TaskRow>, r: ActivityRecord)
    ensures r in TaskRecords(ts) <==> exists t :: t in ts && Crm.Truthy(t.responsibleUser) && r == TaskRecord(t)
  {
    if ts != [] {
      var init := ts[..|ts| - 1];
      var last := ts[|ts| - 1];
      TaskRecordsExact(init, r);
      assert ts == init + [last];
      if r in TaskRecords(ts) && r !in TaskRecords(init) {
        assert last in ts;
      }
      if exists t :: t in ts && Crm.Truthy(t.responsibleUser) && r == TaskRecord(t) {
        var t :| t in ts && Crm.Truthy(t.responsibleUser) && r == TaskRecord(t);
        assert t == last || t in init;
      }
    }
  }

  /** A note record exists exactly for each note with a responsible user and non-null params. */
  lemma {:induction false} NoteRecordsExact(ns: seq<Row>, r: ActivityRecord)
    ensures r in NoteRecords(ns) <==> exists n :: n in ns && NoteBuilds(n) && r == NoteRecord(n)
  {
    if ns != [] {
      var init := ns[..|ns| - 1];
      var last := ns[|ns| - 1];
      NoteRecordsExact(init, r);
      assert ns == init + [last];
      if r in NoteRecords(ns) && r !in NoteRecords(init) {
        assert last in ns;
      }
      if exists n :: n in ns && NoteBuilds(n) && r == NoteRecord(n) {
        var n :| n in ns && NoteBuilds(n) && r == NoteRecord(n);
        assert n == last || n in init;
      }
    }
  }

  /** An event record exists exactly for each event with a creator. */
  lemma {:induction false} EventRecordsExact(es: seq<ActivityEvent>, r: ActivityRecord)
    ensures r in EventRecords(es) <==> exists e :: e in es && Crm.Truthy(e.createdBy) && r == EventRecord(e)
  {
    if es != [] {
      var init := es[..|es| - 1];
      var last := es[|es| - 1];
      EventRecordsExact(init, r);
      assert es == init + [last];
      if r in EventRecords(es) && r !in EventRecords(init) {
        assert last in es;
      }
      if exists e :: e in es && Crm.Truthy(e.createdBy) && r == EventRecord(e) {
        var e :| e in es && Crm.Truthy(e.createdBy) && r == EventRecord(e);
        assert e == last || e in init;
      }
    }
  }

  /** A call record exists exactly for each call whose note is not `null`. */
  lemma {:induction false} CallRecordsExact(cs: seq<Row>, r: ActivityRecord)
    ensures r in CallRecords(cs) <==> exists c :: c in cs && CallBuilds(c) && r == CallRecord(c)
  {
    if cs != [] {
      var init := cs[..|cs| - 1];
      var last := cs[|cs| - 1];
      CallRecordsExact(init, r);
      assert cs == init + [last];
      if r in CallRecords(cs) && r !in CallRecords(init) {
        assert last in cs;
      }
      if exists c :: c in cs && CallBuilds(c) && r == CallRecord(c) {
        var c :| c in cs && CallBuilds(c) && r == CallRecord(c);
        assert c == last || c in init;
      }
    }
  }

  /** The record loops of `transform_activity_data`: calls, then tasks, notes and events. */
  method TransformActivityRecords(calls: seq<Row>, tasks: seq<TaskRow>, notes: seq<Row>, events: seq<ActivityEvent>)
    returns (records: seq<ActivityRecord>)
    ensures records == CallRecords(calls) + TaskRecords(tasks) + NoteRecords(notes) + EventRecords(events)
  {
    var fromCalls := CallLoop(calls);
    var fromTasks := TaskLoop(tasks);
    var fromNotes := NoteLoop(notes);
    var fromEvents := EventLoop(events);
    records := fromCalls + fromTasks + fromNotes + fromEvents;
  }

  /** The loop over calls: a call whose note is `null` is skipped. */
  method CallLoop(calls: seq<Row>) returns (records: seq<ActivityRecord>)
    ensures records == CallRecords(calls)
  {
    records := [];
    var i := 0;
    while i < |calls|
      invariant 0 <= i <= |calls|
      invariant records == CallRecords(calls[..i])
    {
      assert calls[..i + 1][..i] == calls[..i];
      if CallBuilds(calls[i]) {
        records := records + [CallRecord(calls[i])];
      }
      i := i + 1;
    }
    assert calls[..i] == calls;
  }

  /** The loop over tasks: tasks without a responsible user are skipped. */
  method TaskLoop(tasks: seq<TaskRow>) returns (records: seq<ActivityRecord>)
    ensures records == TaskRecords(tasks)
  {
    records := [];
    var i := 0;
    while i < |tasks|
      invariant 0 <= i <= |tasks|
      invariant records == TaskRecords(tasks[..i])
    {
      assert tasks[..i + 1][..i] == tasks[..i];
      if Crm.Truthy(tasks[i].responsibleUser) {
        records := records + [TaskRecord(tasks[i])];
      }
      i := i + 1;
    }
    assert tasks[..i] == tasks;
  }

  /** The loop over notes: notes without a responsible user or with `null` params are skipped. */
  method NoteLoop(notes: seq<Row>) returns (records: seq<ActivityRecord>)
    ensures records == NoteRecords(notes)
  {
    records := [];
    var i := 0;
    while i < |notes|
      invariant 0 <= i <= |notes|
      invariant records == NoteRecords(notes[..i])
    {
      assert notes[..i + 1][..i] == notes[..i];
      if NoteBuilds(notes[i]) {
        records := records + [NoteRecord(notes[i])];
      }
      i := i + 1;
    }
    assert notes[..i] == notes;
  }

  /** The loop over events: events without an author are skipped. */
  method EventLoop(events: seq<ActivityEvent>) returns (records: seq<ActivityRecord>)
    ensures records == EventRecords(events)
  {
    records := [];
    var i := 0;
    while i < |events|
      invariant 0 <= i <= |events|
      invariant records == EventRecords(events[..i])
    {
      assert events[..i + 1][..i] == events[..i];
      if Crm.Truthy(events[i].createdBy) {
        records := records + [EventRecord(events[i])];
      }
      i := i + 1;
    }
    assert events[..i] == events;
  }

  // ---------------------------------------------------------------------------
  // Derived rates
  // ---------------------------------------------------------------------------

  /** One user's daily aggregate, as the per-user query returns it. */
  datatype UserDay = UserDay(
    totalActivities: nat,
    callsMade: nat,
    emailsSent: nat,
    whatsappSent: nat,
    meetingsScheduled: nat,
    followupsOnTime: nat,
    totalFollowups: nat,
    uniqueLeads: nat)

  datatype UserRates = UserRates(totalContacts: nat, followupCompliance: real, activitiesPerLead: real)

  /** The three derived per-user values; each rate is 0 on a zero denominator. */
  function DeriveUserRates(u: UserDay): (r: UserRates)
    ensures r.totalContacts == u.callsMade + u.emailsSent + u.whatsappSent + u.meetingsScheduled
    ensures u.totalFollowups == 0 ==> r.followupCompliance == 0.0
    ensures u.totalFollowups > 0 ==> r.followupCompliance * u.totalFollowups as real == u.followupsOnTime as real * 100.0
    ensures u.followupsOnTime <= u.totalFollowups ==> 0.0 <= r.followupCompliance <= 100.0
    ensures u.uniqueLeads == 0 ==> r.activitiesPerLead == 0.0
    ensures u.uniqueLeads > 0 ==> r.activitiesPerLead * u.uniqueLeads as real == u.totalActivities as real
  {
    UserRates(
      u.callsMade + u.emailsSent + u.whatsappSent + u.meetingsScheduled,
      Percent(u.followupsOnTime as real, u.totalFollowups as real),
      Ratio(u.totalActivities as real, u.uniqueLeads as real))
  }

  /** `contacts_per_user`, 0 when no user was active. */
  function ContactsPerUser(teamContacts: nat, activeUsers: nat): (r: real)
    ensures activeUsers == 0 ==> r == 0.0
    ensures activeUsers > 0 ==> r * activeUsers as real == teamContacts as real
    ensures 0.0 <= r
  {
    Ratio(teamContacts as real, activeUsers as real)
  }

  /** The team's contacts: the sum of the users' `total_contacts`. */
  function TeamContacts(users: seq<UserDay>): nat {
    if users == [] then 0
    else TeamContacts(users[..|users| - 1]) + DeriveUserRates(users[|users| - 1]).totalContacts
  }

  function TeamCalls(users: seq<UserDay>): nat {
    if users == [] then 0 else TeamCalls(users[..|users| - 1]) + users[|users| - 1].callsMade
  }

  function TeamEmails(users: seq<UserDay>): nat {
    if users == [] then 0 else TeamEmails(users[..|users| - 1]) + users[|users| - 1].emailsSent
  }

  function TeamWhatsapp(users: seq<UserDay>): nat {
    if users == [] then 0 else TeamWhatsapp(users[..|users| - 1]) + users[|users| - 1].whatsappSent
  }

  function TeamMeetings(users: seq<UserDay>): nat {
    if users == [] then 0 else TeamMeetings(users[..|users| - 1]) + users[|users| - 1].meetingsScheduled
  }

  /** The team's contacts equal its calls, e-mails, WhatsApp messages and meetings added up. */
  lemma {:induction false} TeamContactsAddUp(users: seq<UserDay>)
    ensures TeamContacts(users) == TeamCalls(users) + TeamEmails(users) + TeamWhatsapp(users) + TeamMeetings(users)
  {
    if users != [] {
      TeamContactsAddUp(users[..|users| - 1]);
    }
  }
}
