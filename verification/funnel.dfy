/**
 * Stage-history reconstruction of the main sales pipeline: status names are
 * classified into buckets, each lead's status-change events are grouped and
 * sorted, and every event becomes one stage record with its entry and exit
 * time, the time spent in the stage and the kind of transition that left it.
 */
module Funnel {
  import opened Wrappers
  import opened Text
  import opened Sorting
  import opened Crm
  import opened Rates

  /** The only pipeline this step reconstructs ("Funil de vendas"). */
  const MainPipelineId: int := 11146887

  // ---------------------------------------------------------------------------
  // Status classification
  // ---------------------------------------------------------------------------

  /** The exact status names of the main pipeline and their buckets. */
  const StatusMapping: map<string, Bucket> := map[
    "Incoming leads" := Lead,
    "Interessados" := Qualified,
    "Abordados" := Qualified,
    "Qualificação" := Qualified,
    "Qualificado para reunião" := Qualified,
    "Apresentação" := Meeting,
    "No Show" := MeetingFailed,
    "FUP" := Proposal,
    "Negociação" := Negotiation,
    "Venda ganha" := Won,
    "Venda perdida" := Lost
  ]

  const LeadWords: seq<string> := ["incoming", "novo", "lead", "entrada"]
  const QualifiedWords: seq<string> := ["interessado", "abordo", "qualific"]
  const MeetingWords: seq<string> := ["apresenta", "reunião", "meeting", "show"]
  const ProposalWords: seq<string> := ["fup", "follow", "proposta"]
  const NegotiationWords: seq<string> := ["negoci"]
  const WonWords: seq<string> := ["ganho", "ganha", "won", "fechado"]
  const LostWords: seq<string> := ["perdido", "perdida", "lost"]

  /** The keyword groups, tested in this order on the lower-cased name; `None` when none matches. */
  function KeywordBucket(lower: string): Option<Bucket> {
    if ContainsAny(lower, LeadWords) then Some(Lead)
    else if ContainsAny(lower, QualifiedWords) then Some(Qualified)
    else if ContainsAny(lower, MeetingWords) then Some(Meeting)
    else if ContainsAny(lower, ProposalWords) then Some(Proposal)
    else if ContainsAny(lower, NegotiationWords) then Some(Negotiation)
    else if ContainsAny(lower, WonWords) then Some(Won)
    else if ContainsAny(lower, LostWords) then Some(Lost)
    else None
  }

  /**
   * The classifier as written: an empty name is `other`, a known name its
   * mapped bucket, and otherwise the first matching keyword group. The final
   * `return 'other'` sits inside the last branch, so a name matching no
   * keyword yields `None`.
   */
  function ClassifyStatusType(name: Option<string>): (r: Option<Bucket>)
    ensures (name.None? || name.value == "") ==> r == Some(Other)
    ensures name.Some? && name.value in StatusMapping ==> r == Some(StatusMapping[name.value])
    ensures r == Some(Other) ==> name.None? || name.value == ""
  {
    if name.None? || name.value == "" then Some(Other)
    else if name.value in StatusMapping then Some(StatusMapping[name.value])
    else KeywordBucket(Lower(name.value))
  }

  /** A non-empty name outside the table that matches no keyword is left without a bucket. */
  lemma ClassifyStatusTypeFallsOff()
    ensures ClassifyStatusType(Some("OK")) == None
  {
    var lower := Lower("OK");
    assert lower == "ok";
    ContainsNoneLonger(lower, LeadWords);
    ContainsNoneLonger(lower, QualifiedWords);
    ContainsNoneLonger(lower, MeetingWords);
    ContainsNoneLonger(lower, ProposalWords);
    ContainsNoneLonger(lower, NegotiationWords);
    ContainsNoneLonger(lower, WonWords);
    ContainsNoneLonger(lower, LostWords);
  }

  /** The classifier with the final `other` default in effect; the status cache is built with it. */
  function ClassifyStatusTypeOrOther(name: Option<string>): (r: Bucket)
    ensures ClassifyStatusType(name).Some? ==> r == ClassifyStatusType(name).value
    ensures r == Other <==> ClassifyStatusType(name) in {None, Some(Other)}
  {
    match ClassifyStatusType(name)
    case Some(b) => b
    case None => Other
  }

  /** Only the exact name "No Show" is a failed meeting: the keyword "show" means a meeting. */
  lemma MeetingFailedOnlyForNoShow(name: Option<string>)
    ensures ClassifyStatusTypeOrOther(name) == MeetingFailed <==> name == Some("No Show")
  {
    if name.Some? && name.value != "" && name.value !in StatusMapping {
      assert KeywordBucket(Lower(name.value)) != Some(MeetingFailed);
    }
  }

  /** `other` comes only from an empty name or a name matching nothing. */
  lemma OtherMeansUnrecognised(name: Option<string>)
    requires name.Some? && name.value != ""
    ensures ClassifyStatusTypeOrOther(name) == Other <==>
              name.value !in StatusMapping && KeywordBucket(Lower(name.value)).None?
  {
    assert forall n :: n in StatusMapping ==> StatusMapping[n] != Other;
  }

  // ---------------------------------------------------------------------------
  // Transition kinds
  // ---------------------------------------------------------------------------

  datatype Transition = Advance | Regression | SameStage | Lateral | ToWon | ToLost | Unknown

  /** The position of a bucket in lead < qualified < meeting < proposal < negotiation < won < lost. */
  function StageIndex(b: Bucket): Option<nat> {
    match b
    case Lead => Some(0)
    case Qualified => Some(1)
    case Meeting => Some(2)
    case Proposal => Some(3)
    case Negotiation => Some(4)
    case Won => Some(5)
    case Lost => Some(6)
    case MeetingFailed => None
    case Other => None
  }

  /** The kind of move from one bucket to the next; a missing bucket gives `Unknown`. */
  function DetermineConversion(from: Option<Bucket>, to: Option<Bucket>): (r: Transition)
    ensures r == Unknown <==> from.None? || to.None?
    ensures r == ToWon <==> from.Some? && to == Some(Won)
    ensures r == ToLost <==> from.Some? && to == Some(Lost)
  {
    if from.None? || to.None? then Unknown
    else if to.value == Won then ToWon
    else if to.value == Lost then ToLost
    else if from.value == to.value then SameStage
    else
      var fi := StageIndex(from.value);
      var ti := StageIndex(to.value);
      if fi.Some? && ti.Some? && ti.value > fi.value then Advance
      else if fi.Some? && ti.Some? && ti.value < fi.value then Regression
      else Lateral
  }

  /** Advance and regression follow the stage order, in both directions. */
  lemma ConversionFollowsOrder(from: Bucket, to: Bucket)
    requires to != Won && to != Lost
    ensures DetermineConversion(Some(from), Some(to)) == Advance <==>
              StageIndex(from).Some? && StageIndex(to).Some? && StageIndex(from).value < StageIndex(to).value
    ensures DetermineConversion(Some(from), Some(to)) == Regression <==>
              StageIndex(from).Some? && StageIndex(to).Some? && StageIndex(from).value > StageIndex(to).value
    ensures DetermineConversion(Some(from), Some(to)) == SameStage <==> from == to
  {
  }

  /** Reversing a move between two ordered stages swaps advance and regression. */
  lemma ConversionAntisymmetric(a: Bucket, b: Bucket)
    requires a !in {Won, Lost} && b !in {Won, Lost}
    ensures DetermineConversion(Some(a), Some(b)) == Advance <==> DetermineConversion(Some(b), Some(a)) == Regression
  {
  }

  /** A failed meeting is outside the order: moving to or from it is lateral. */
  lemma MeetingFailedIsLateral(b: Bucket)
    requires b !in {Won, Lost, MeetingFailed}
    ensures DetermineConversion(Some(MeetingFailed), Some(b)) == Lateral
    ensures DetermineConversion(Some(b), Some(MeetingFailed)) == Lateral
  {
  }

  // ---------------------------------------------------------------------------
  // Status cache and stage records
  // ---------------------------------------------------------------------------

  /** A status of the main pipeline as the API returns it. */
  datatype RawStatus = RawStatus(id: int, name: Option<string>, sort: int)

  /** One entry of the status cache. */
  datatype StatusInfo = StatusInfo(name: Option<string>, pipelineId: int, sort: int, bucket: Bucket)

  /** The cache after loading `statuses` on top of `cache`; a later status with the same id wins. */
  function CacheAfter(cache: map<int, StatusInfo>, statuses: seq<RawStatus>): map<int, StatusInfo>
  {
    if statuses == [] then cache
    else
      var s := statuses[|statuses| - 1];
      CacheAfter(cache, statuses[..|statuses| - 1])[s.id := StatusInfo(s.name, MainPipelineId, s.sort, ClassifyStatusTypeOrOther(s.name))]
  }

  /** Every loaded status is in the cache, in the main pipeline, classified by its name. */
  lemma {:induction false} CacheAfterHolds(cache: map<int, StatusInfo>, statuses: seq<RawStatus>, k: int)
    requires 0 <= k < |statuses|
    ensures statuses[k].id in CacheAfter(cache, statuses)
    ensures CacheAfter(cache, statuses)[statuses[k].id].pipelineId == MainPipelineId
    ensures (forall j :: k < j < |statuses| ==> statuses[j].id != statuses[k].id) ==>
              CacheAfter(cache, statuses)[statuses[k].id].bucket == ClassifyStatusTypeOrOther(statuses[k].name)
  {
    if k < |statuses| - 1 {
      CacheAfterHolds(cache, statuses[..|statuses| - 1], k);
    }
  }

  /** Loading keeps every entry of the cache in the main pipeline. */
  lemma {:induction false} CacheAfterMain(cache: map<int, StatusInfo>, statuses: seq<RawStatus>)
    requires forall id :: id in cache ==> cache[id].pipelineId == MainPipelineId
    ensures forall id :: id in CacheAfter(cache, statuses) ==> CacheAfter(cache, statuses)[id].pipelineId == MainPipelineId
  {
    if statuses != [] {
      CacheAfterMain(cache, statuses[..|statuses| - 1]);
    }
  }

  /** A lead of the leads API, with the fields this step reads. */
  datatype LeadRow = LeadRow(
    id: int,
    statusId: int,
    pipelineId: int,
    createdAt: int,
    price: Slot<real>,
    responsibleUserId: Option<int>)

  /** The loss reason found for a lead. */
  datatype LossReason = LossReason(reasonId: Option<int>, reasonName: Option<string>)

  /** One stage of a lead's history, a row of `funnel_history`. */
  datatype StageRecord = StageRecord(
    leadId: int,
    statusId: int,
    statusName: Option<string>,
    statusType: Bucket,
    statusSort: int,
    entry: int,
    exit: Option<int>,
    hoursInStatus: real,
    isCurrent: bool,
    conversion: Option<Transition>,
    nextType: Option<Bucket>,
    leadValue: real,
    responsibleUserId: Option<int>,
    lossReasonId: Option<int>,
    lossReasonName: Option<string>)

  /** Hours between two Unix timestamps. */
  function Hours(from: int, to: int): real {
    (to - from) as real / 3600.0
  }

  /** `loss_reason.get('reason_id')` on the lead's loss entry, `{}` when there is none. */
  function LossId(loss: Option<LossReason>): Option<int> {
    if loss.Some? then loss.value.reasonId else None
  }

  function LossName(loss: Option<LossReason>): Option<string> {
    if loss.Some? then loss.value.reasonName else None
  }

  /** The event moves the lead to a status of the main pipeline that the cache knows. */
  predicate Emits(cache: map<int, StatusInfo>, e: Event) {
    Truthy(e.newStatus) && e.newStatus.value in cache && cache[e.newStatus.value].pipelineId == MainPipelineId
  }

  /** The cache entry of the status the next event moves to, if there is a next event and the cache knows it. */
  function NextInfo(cache: map<int, StatusInfo>, events: seq<Event>, i: nat): Option<StatusInfo>
    requires i < |events|
  {
    if i + 1 < |events| && events[i + 1].newStatus.Some? && events[i + 1].newStatus.value in cache
    then Some(cache[events[i + 1].newStatus.value])
    else None
  }

  /**
   * The record event `i` emits, if any. `float(price)` on a `null` price raises
   * inside the per-event handler, so the event is then skipped.
   */
  function EventRecord(cache: map<int, StatusInfo>, lead: LeadRow, events: seq<Event>, i: nat,
                       loss: Option<LossReason>, now: int): Option<StageRecord>
    requires i < |events|
  {
    var e := events[i];
    var value := lead.price.Get(0.0);
    if !Emits(cache, e) || value.None? then None
    else
      var info := cache[e.newStatus.value];
      var next := NextInfo(cache, events, i);
      var last := i == |events| - 1;
      var conversion :=
        if next.Some? then Some(DetermineConversion(Some(info.bucket), Some(next.value.bucket)))
        else if info.bucket == Lost then Some(ToLost)
        else if info.bucket == Won then Some(ToWon)
        else None;
      var lost := info.bucket == Lost;
      Some(StageRecord(
        lead.id, e.newStatus.value, info.name, info.bucket, info.sort,
        e.createdAt,
        if last then None else Some(events[i + 1].createdAt),
        if last then Hours(e.createdAt, now) else Hours(e.createdAt, events[i + 1].createdAt),
        last,
        conversion,
        if next.Some? then Some(next.value.bucket) else None,
        value.value, lead.responsibleUserId,
        if lost then LossId(loss) else None,
        if lost then LossName(loss) else None))
  }

  /** The records the first `n` events emit, in event order. */
  function EventRecords(cache: map<int, StatusInfo>, lead: LeadRow, events: seq<Event>, n: nat,
                        loss: Option<LossReason>, now: int): seq<StageRecord>
    requires n <= |events|
  {
    if n == 0 then []
    else
      EventRecords(cache, lead, events, n - 1, loss, now)
      + (match EventRecord(cache, lead, events, n - 1, loss, now)
         case Some(r) => [r]
         case None => [])
  }

  /** The single open record of a lead without events: its current status since creation. */
  function CurrentStatusRecord(cache: map<int, StatusInfo>, lead: LeadRow, value: real,
                               loss: Option<LossReason>, now: int): StageRecord
  {
    var known := lead.statusId in cache;
    StageRecord(
      lead.id, lead.statusId,
      if known then cache[lead.statusId].name else Some("Unknown"),
      if known then cache[lead.statusId].bucket else Other,
      if known then cache[lead.statusId].sort else 0,
      lead.createdAt, None, Hours(lead.createdAt, now), true, None, None,
      value, lead.responsibleUserId, LossId(loss), LossName(loss))
  }

  /** What `calculate_lead_funnel_metrics` returns for one lead and its sorted events. */
  function LeadRecords(cache: map<int, StatusInfo>, lead: LeadRow, events: seq<Event>,
                       loss: Option<LossReason>, now: int): seq<StageRecord>
  {
    if lead.pipelineId != MainPipelineId then []
    else if events == [] then
      match lead.price.Get(0.0)
      case Some(value) => [CurrentStatusRecord(cache, lead, value, loss, now)]
      case None => []
    else EventRecords(cache, lead, events, |events|, loss, now)
  }

  /** A lead outside the main pipeline has no history here. */
  lemma OtherPipelineHasNoRecords(cache: map<int, StatusInfo>, lead: LeadRow, events: seq<Event>,
                                  loss: Option<LossReason>, now: int)
    requires lead.pipelineId != MainPipelineId
    ensures LeadRecords(cache, lead, events, loss, now) == []
  {
  }

  /** A lead without events has exactly one open record for its current status, entered at creation. */
  lemma NoEventsOneOpenRecord(cache: map<int, StatusInfo>, lead: LeadRow, loss: Option<LossReason>, now: int)
    requires lead.pipelineId == MainPipelineId && !lead.price.Null?
    ensures |LeadRecords(cache, lead, [], loss, now)| == 1
    ensures var r := LeadRecords(cache, lead, [], loss, now)[0];
              r.entry == lead.createdAt && r.exit.None? && r.isCurrent && r.conversion.None?
              && r.statusId == lead.statusId
  {
  }

  /** A `null` price makes every record of the lead fail, so the lead contributes nothing. */
  lemma {:induction false} NullPriceNoRecords(cache: map<int, StatusInfo>, lead: LeadRow, events: seq<Event>, n: nat,
                                              loss: Option<LossReason>, now: int)
    requires n <= |events| && lead.price.Null?
    ensures EventRecords(cache, lead, events, n, loss, now) == []
  {
    if n > 0 {
      NullPriceNoRecords(cache, lead, events, n - 1, loss, now);
    }
  }

  /** Each event emits at most one record. */
  lemma {:induction false} AtMostOneRecordPerEvent(cache: map<int, StatusInfo>, lead: LeadRow, events: seq<Event>, n: nat,
                                                   loss: Option<LossReason>, now: int)
    requires n <= |events|
    ensures |EventRecords(cache, lead, events, n, loss, now)| <= n
  {
    if n > 0 {
      AtMostOneRecordPerEvent(cache, lead, events, n - 1, loss, now);
    }
  }

  /** A record is open exactly when it has no exit time. */
  predicate OpenIffNoExit(rs: seq<StageRecord>) {
    forall k :: 0 <= k < |rs| ==> (rs[k].isCurrent <==> rs[k].exit.None?)
  }

  predicate AllClosed(rs: seq<StageRecord>) {
    forall k :: 0 <= k < |rs| ==> !rs[k].isCurrent
  }

  /** Records of events that all have a successor are closed; every record is open iff it has no exit. */
  lemma {:induction false} EarlierRecordsClosed(cache: map<int, StatusInfo>, lead: LeadRow, events: seq<Event>, n: nat,
                                                loss: Option<LossReason>, now: int)
    requires n <= |events|
    ensures OpenIffNoExit(EventRecords(cache, lead, events, n, loss, now))
    ensures n < |events| ==> AllClosed(EventRecords(cache, lead, events, n, loss, now))
  {
    if n > 0 {
      EarlierRecordsClosed(cache, lead, events, n - 1, loss, now);
    }
  }

  /** Only the record of the last event can be open, so all but the last record are closed. */
  lemma OnlyLastRecordOpen(cache: map<int, StatusInfo>, lead: LeadRow, events: seq<Event>,
                           loss: Option<LossReason>, now: int)
    ensures OpenIffNoExit(LeadRecords(cache, lead, events, loss, now))
    ensures var rs := LeadRecords(cache, lead, events, loss, now);
              forall k :: 0 <= k < |rs| - 1 ==> !rs[k].isCurrent
  {
    if lead.pipelineId == MainPipelineId && events != [] {
      EarlierRecordsClosed(cache, lead, events, |events|, loss, now);
      EarlierRecordsClosed(cache, lead, events, |events| - 1, loss, now);
    }
  }

  /** With events in time order, every closed stage ends no earlier than it began. */
  lemma {:induction false} ClosedDurationsNonNegative(cache: map<int, StatusInfo>, lead: LeadRow, events: seq<Event>, n: nat,
                                                      loss: Option<LossReason>, now: int)
    requires n <= |events| && SortedByKey(events, CreatedAt)
    ensures forall r :: r in EventRecords(cache, lead, events, n, loss, now) && r.exit.Some? ==>
              r.exit.value >= r.entry && r.hoursInStatus >= 0.0
  {
    if n > 0 {
      ClosedDurationsNonNegative(cache, lead, events, n - 1, loss, now);
      if n < |events| {
        assert CreatedAt(events[n - 1]) <= CreatedAt(events[n]);
      }
    }
  }

  /**
   * `r` is the record of event `i`: it moves to that event's status, begins at
   * the event, and either ends at the next raw event with the hours between the
   * two, or, for the last event, stays open and is measured up to `now`.
   */
  predicate RecordOfEvent(r: StageRecord, events: seq<Event>, i: int, now: int) {
    0 <= i < |events|
    && events[i].newStatus == Some(r.statusId)
    && r.entry == events[i].createdAt
    && if i + 1 < |events| then
         r.exit == Some(events[i + 1].createdAt) && !r.isCurrent
         && r.hoursInStatus == Hours(events[i].createdAt, events[i + 1].createdAt)
       else
         r.exit.None? && r.isCurrent && r.hoursInStatus == Hours(r.entry, now)
  }

  /** The record an event emits is timed by that event and the one after it, whichever events emit. */
  lemma EventRecordTiming(cache: map<int, StatusInfo>, lead: LeadRow, events: seq<Event>, i: nat,
                          loss: Option<LossReason>, now: int)
    requires i < |events| && EventRecord(cache, lead, events, i, loss, now).Some?
    ensures RecordOfEvent(EventRecord(cache, lead, events, i, loss, now).value, events, i, now)
  {
  }

  /** Every record of the first `n` events is the record of one of them. */
  lemma {:induction false} EventRecordsTimed(cache: map<int, StatusInfo>, lead: LeadRow, events: seq<Event>, n: nat,
                                             loss: Option<LossReason>, now: int)
    requires n <= |events|
    ensures forall r :: r in EventRecords(cache, lead, events, n, loss, now) ==>
              exists i :: 0 <= i < n && RecordOfEvent(r, events, i, now)
  {
    if n > 0 {
      EventRecordsTimed(cache, lead, events, n - 1, loss, now);
      var prev := EventRecords(cache, lead, events, n - 1, loss, now);
      var last := EventRecord(cache, lead, events, n - 1, loss, now);
      forall r | r in EventRecords(cache, lead, events, n, loss, now)
        ensures exists i :: 0 <= i < n && RecordOfEvent(r, events, i, now)
      {
        if r !in prev {
          assert last.Some? && r == last.value;
          EventRecordTiming(cache, lead, events, n - 1, loss, now);
        }
      }
    }
  }

  /** Loss-reason fields are filled only on records of a lost stage. */
  lemma {:induction false} LossOnlyOnLostStages(cache: map<int, StatusInfo>, lead: LeadRow, events: seq<Event>, n: nat,
                                                loss: Option<LossReason>, now: int)
    requires n <= |events|
    ensures forall r :: r in EventRecords(cache, lead, events, n, loss, now) ==>
              (r.lossReasonId.Some? || r.lossReasonName.Some?) ==> r.statusType == Lost
  {
    if n > 0 {
      LossOnlyOnLostStages(cache, lead, events, n - 1, loss, now);
    }
  }

  /**
   * When every event emits, there is one record per event and each stage ends
   * exactly when the next one begins.
   */
  lemma {:induction false} ContiguousWhenAllEmit(cache: map<int, StatusInfo>, lead: LeadRow, events: seq<Event>, n: nat,
                                                 loss: Option<LossReason>, now: int)
    requires n <= |events| && lead.price.Get(0.0).Some?
    requires forall i :: 0 <= i < |events| ==> Emits(cache, events[i])
    ensures var rs := EventRecords(cache, lead, events, n, loss, now);
              |rs| == n
              && (forall k :: 0 <= k < n ==> rs[k].entry == events[k].createdAt)
              && (forall k :: 0 <= k < n - 1 ==> rs[k].exit == Some(rs[k + 1].entry))
  {
    if n > 0 {
      ContiguousWhenAllEmit(cache, lead, events, n - 1, loss, now);
      var prev := EventRecords(cache, lead, events, n - 1, loss, now);
      assert Emits(cache, events[n - 1]);
      var r := EventRecord(cache, lead, events, n - 1, loss, now).value;
      assert EventRecords(cache, lead, events, n, loss, now) == prev + [r];
      assert r.entry == events[n - 1].createdAt;
      if n > 1 {
        var q := EventRecord(cache, lead, events, n - 2, loss, now);
        assert Emits(cache, events[n - 2]);
        assert prev[n - 2] == q.value;
        assert q.value.exit == Some(events[n - 1].createdAt);
      }
    }
  }

  // ---------------------------------------------------------------------------
  // Loss-reason naming, dedupe of updated leads, daily funnel rates
  // ---------------------------------------------------------------------------

  predicate Blank(name: Option<string>) {
    name.None? || Strip(name.value) == ""
  }

  /**
   * The name stored for a lost lead: the mapped name of its reason id, else
   * "Motivo ID <id>" for a blank API name with an id, else `None` for a blank
   * name without one, else the API name.
   */
  function LossReasonName(id: Option<int>, apiName: Option<string>, mapping: map<int, string>): (r: Option<string>)
    ensures r.None? <==> !(Truthy(id) && id.value in mapping) && Blank(apiName) && !Truthy(id)
    ensures Truthy(id) && id.value in mapping ==> r == Some(mapping[id.value])
    ensures !Blank(apiName) && !(Truthy(id) && id.value in mapping) ==> r == apiName
  {
    if Truthy(id) && id.value in mapping then Some(mapping[id.value])
    else if Blank(apiName) then
      if Truthy(id) then Some("Motivo ID " + IntToString(id.value)) else None
    else apiName
  }

  /** An id the mapping does not know, with a blank API name, is named after the id. */
  lemma LossReasonNamedAfterId(id: int, apiName: Option<string>, mapping: map<int, string>)
    requires id != 0 && id !in mapping && Blank(apiName)
    ensures LossReasonName(Some(id), apiName, mapping).Some?
    ensures LossReasonName(Some(id), apiName, mapping) == Some("Motivo ID " + IntToString(id))
    ensures StartsWith(LossReasonName(Some(id), apiName, mapping).value, "Motivo ID ")
  {
  }

  /** The leads of a page whose id is not yet among `all`, in page order. */
  function NewLeads(all: seq<int>, page: seq<int>): (r: seq<int>)
    ensures forall x :: x in r <==> x in page && x !in all
  {
    if page == [] then []
    else NewLeads(all, page[..|page| - 1]) + (if page[|page| - 1] in all then [] else [page[|page| - 1]])
  }

  predicate Distinct(ids: seq<int>) {
    forall i, j :: 0 <= i < j < |ids| ==> ids[i] != ids[j]
  }

  /** Extending with the new leads of a page keeps every id of the page and of the list. */
  lemma AppendNewLeadsKeepsAll(all: seq<int>, page: seq<int>)
    ensures forall x :: x in all + NewLeads(all, page) <==> x in all || x in page
  {
  }

  /** A page with distinct ids cannot introduce a duplicate into a list with distinct ids. */
  lemma {:induction false} AppendNewLeadsDistinct(all: seq<int>, page: seq<int>)
    requires Distinct(all) && Distinct(page)
    ensures Distinct(all + NewLeads(all, page))
  {
    if page != [] {
      var init := page[..|page| - 1];
      var x := page[|page| - 1];
      assert Distinct(init);
      AppendNewLeadsDistinct(all, init);
      var prev := all + NewLeads(all, init);
      if x !in all {
        assert x !in init;
        assert x !in prev;
        assert all + NewLeads(all, page) == prev + [x];
      } else {
        assert all + NewLeads(all, page) == prev;
      }
    }
  }

  /** Duplicates inside one page are not removed: the id set is built once per page. */
  lemma AppendNewLeadsKeepsPageDuplicates()
    ensures NewLeads([], [7, 7]) == [7, 7]
  {
    assert [7, 7][..1] == [7];
    assert [7][..0] == [];
  }

  /** The eleven stage counts of one day, in the order of the main pipeline. */
  datatype StageCounts = StageCounts(
    incoming: nat, interessados: nat, abordados: nat, qualificacao: nat, qualificadoReuniao: nat,
    apresentacao: nat, noShow: nat, fup: nat, negociacao: nat, vendaGanha: nat, vendaPerdida: nat)

  datatype FunnelRates = FunnelRates(qualification: real, meeting: real, proposal: real, closing: real)

  function TotalStages(c: StageCounts): nat {
    c.incoming + c.interessados + c.abordados + c.qualificacao + c.qualificadoReuniao
    + c.apresentacao + c.noShow + c.fup + c.negociacao + c.vendaGanha + c.vendaPerdida
  }

  /** The daily rates: qualification, meeting, proposal and closing stages over all stage entries. */
  function DailyFunnelRates(c: StageCounts): FunnelRates {
    var total := TotalStages(c) as real;
    FunnelRates(
      Percent((c.interessados + c.abordados + c.qualificacao + c.qualificadoReuniao) as real, total),
      Percent((c.apresentacao + c.noShow) as real, total),
      Percent((c.fup + c.negociacao) as real, total),
      Percent(c.vendaGanha as real, total))
  }

  /** Every rate lies in [0, 100], all are 0 on an empty day, and together they never exceed 100. */
  lemma DailyFunnelRatesBounded(c: StageCounts)
    ensures var r := DailyFunnelRates(c);
              0.0 <= r.qualification <= 100.0 && 0.0 <= r.meeting <= 100.0
              && 0.0 <= r.proposal <= 100.0 && 0.0 <= r.closing <= 100.0
              && (TotalStages(c) == 0 ==> r == FunnelRates(0.0, 0.0, 0.0, 0.0))
              && r.qualification + r.meeting + r.proposal + r.closing <= 100.0
  {
    var total := TotalStages(c) as real;
    var q := (c.interessados + c.abordados + c.qualificacao + c.qualificadoReuniao) as real;
    var m := (c.apresentacao + c.noShow) as real;
    var p := (c.fup + c.negociacao) as real;
    var w := c.vendaGanha as real;
    PercentAdd(q, m, total);
    PercentAdd(q + m, p, total);
    PercentAdd(q + m + p, w, total);
  }

  // ---------------------------------------------------------------------------
  // The ETL object
  // ---------------------------------------------------------------------------

  /** Everything `transform_funnel_data` returns for the given leads and events. */
  function FunnelHistory(cache: map<int, StatusInfo>, leads: seq<LeadRow>, events: seq<Event>,
                         losses: map<int, LossReason>, now: int): seq<StageRecord>
  {
    if leads == [] then []
    else
      var lead := leads[|leads| - 1];
      FunnelHistory(cache, leads[..|leads| - 1], events, losses, now)
      + LeadRecords(cache, lead, SortByKey(EventsOf(events, lead.id), CreatedAt),
                    if lead.id in losses then Some(losses[lead.id]) else None, now)
  }

  /** The history of one more lead is the history so far followed by that lead's records. */
  lemma FunnelHistorySnoc(cache: map<int, StatusInfo>, leads: seq<LeadRow>, j: nat, events: seq<Event>,
                          losses: map<int, LossReason>, now: int)
    requires j < |leads|
    ensures FunnelHistory(cache, leads[..j + 1], events, losses, now)
            == FunnelHistory(cache, leads[..j], events, losses, now)
               + LeadRecords(cache, leads[j], SortByKey(EventsOf(events, leads[j].id), CreatedAt),
                             if leads[j].id in losses then Some(losses[leads[j].id]) else None, now)
  {
    assert leads[..j + 1][..j] == leads[..j];
  }

  /**
   * Every record a lead's time-ordered events produce is the record of one of
   * them: closed stages end at the next raw event, with the hours between the
   * two (never negative), and the last event's stage is open up to `now`.
   */
  lemma LeadRecordsDurations(cache: map<int, StatusInfo>, lead: LeadRow, events: seq<Event>,
                             loss: Option<LossReason>, now: int)
    requires SortedByKey(events, CreatedAt)
    ensures forall r :: r in LeadRecords(cache, lead, events, loss, now) && r.exit.Some? ==>
              r.exit.value >= r.entry && r.hoursInStatus >= 0.0
    ensures events != [] ==>
              forall r :: r in LeadRecords(cache, lead, events, loss, now) ==>
                exists i :: 0 <= i < |events| && RecordOfEvent(r, events, i, now)
  {
    if lead.pipelineId == MainPipelineId && events != [] {
      ClosedDurationsNonNegative(cache, lead, events, |events|, loss, now);
      EventRecordsTimed(cache, lead, events, |events|, loss, now);
    }
  }

  /** A lead's events sorted by time, as the reconstruction reads them. */
  function SortedEventsOf(events: seq<Event>, id: int): seq<Event> {
    SortByKey(EventsOf(events, id), CreatedAt)
  }

  /** Every closed stage of the reconstructed history has a non-negative duration. */
  lemma {:induction false} FunnelHistoryDurations(cache: map<int, StatusInfo>, leads: seq<LeadRow>, events: seq<Event>,
                                                  losses: map<int, LossReason>, now: int)
    ensures forall r :: r in FunnelHistory(cache, leads, events, losses, now) && r.exit.Some? ==>
              r.exit.value >= r.entry && r.hoursInStatus >= 0.0
  {
    if leads != [] {
      var lead := leads[|leads| - 1];
      var sorted := SortedEventsOf(events, lead.id);
      var loss := if lead.id in losses then Some(losses[lead.id]) else None;
      FunnelHistoryDurations(cache, leads[..|leads| - 1], events, losses, now);
      SortByKeyCorrect(EventsOf(events, lead.id), CreatedAt);
      LeadRecordsDurations(cache, lead, sorted, loss, now);
      assert FunnelHistory(cache, leads, events, losses, now)
          == FunnelHistory(cache, leads[..|leads| - 1], events, losses, now) + LeadRecords(cache, lead, sorted, loss, now);
    }
  }

  /**
   * Every closed stage of the reconstructed history is the record of an event
   * of its lead: it ends at that lead's next event, and its hours are the time
   * between the two.
   */
  lemma {:induction false} FunnelHistoryTiming(cache: map<int, StatusInfo>, leads: seq<LeadRow>, events: seq<Event>,
                                               losses: map<int, LossReason>, now: int)
    ensures forall r :: r in FunnelHistory(cache, leads, events, losses, now) && r.exit.Some? ==>
              exists j, i :: 0 <= j < |leads| && leads[j].id == r.leadId
                             && RecordOfEvent(r, SortedEventsOf(events, leads[j].id), i, now)
  {
    if leads != [] {
      var init := leads[..|leads| - 1];
      var lead := leads[|leads| - 1];
      var sorted := SortedEventsOf(events, lead.id);
      var loss := if lead.id in losses then Some(losses[lead.id]) else None;
      var mine := LeadRecords(cache, lead, sorted, loss, now);
      FunnelHistoryTiming(cache, init, events, losses, now);
      SortByKeyCorrect(EventsOf(events, lead.id), CreatedAt);
      LeadRecordsDurations(cache, lead, sorted, loss, now);
      assert FunnelHistory(cache, leads, events, losses, now)
          == FunnelHistory(cache, init, events, losses, now) + mine;
      forall r | r in FunnelHistory(cache, leads, events, losses, now) && r.exit.Some?
        ensures exists j, i :: 0 <= j < |leads| && leads[j].id == r.leadId
                               && RecordOfEvent(r, SortedEventsOf(events, leads[j].id), i, now)
      {
        if r in mine {
          assert lead.pipelineId == MainPipelineId && sorted != [];
          RecordsBelongToLead(cache, lead, sorted, |sorted|, loss, now);
          var i :| 0 <= i < |sorted| && RecordOfEvent(r, sorted, i, now);
          assert leads[|leads| - 1] == lead;
        } else {
          var j, i :| 0 <= j < |init| && init[j].id == r.leadId
                      && RecordOfEvent(r, SortedEventsOf(events, init[j].id), i, now);
          assert leads[j] == init[j];
        }
      }
    }
  }

  /** Only leads of the main pipeline contribute to the history. */
  lemma {:induction false} FunnelHistoryMainOnly(cache: map<int, StatusInfo>, leads: seq<LeadRow>, events: seq<Event>,
                                                 losses: map<int, LossReason>, now: int)
    ensures forall r :: r in FunnelHistory(cache, leads, events, losses, now) ==>
              exists i :: 0 <= i < |leads| && leads[i].id == r.leadId && leads[i].pipelineId == MainPipelineId
  {
    if leads != [] {
      var lead := leads[|leads| - 1];
      FunnelHistoryMainOnly(cache, leads[..|leads| - 1], events, losses, now);
      var sorted := SortByKey(EventsOf(events, lead.id), CreatedAt);
      var loss := if lead.id in losses then Some(losses[lead.id]) else None;
      if lead.pipelineId == MainPipelineId && sorted != [] {
        RecordsBelongToLead(cache, lead, sorted, |sorted|, loss, now);
      }
    }
  }

  lemma {:induction false} RecordsBelongToLead(cache: map<int, StatusInfo>, lead: LeadRow, events: seq<Event>, n: nat,
                                               loss: Option<LossReason>, now: int)
    requires n <= |events|
    ensures forall r :: r in EventRecords(cache, lead, events, n, loss, now) ==> r.leadId == lead.id
  {
    if n > 0 {
      RecordsBelongToLead(cache, lead, events, n - 1, loss, now);
    }
  }

  /** The funnel ETL step; its status cache is filled from the main pipeline's statuses. */
  class FunnelEtl {
    var statusCache: map<int, StatusInfo>

    /** Every cached status belongs to the main pipeline. */
    predicate Valid()
      reads this
    {
      forall id :: id in statusCache ==> statusCache[id].pipelineId == MainPipelineId
    }

    constructor ()
      ensures statusCache == map[] && Valid()
    {
      statusCache := map[];
    }

    /** Caches each status of the main pipeline under its id, with the bucket of its name. */
    method LoadStatuses(statuses: seq<RawStatus>)
      requires Valid()
      modifies this
      ensures statusCache == CacheAfter(old(statusCache), statuses)
      ensures Valid()
    {
      ghost var start := statusCache;
      var i := 0;
      while i < |statuses|
        invariant 0 <= i <= |statuses|
        invariant statusCache == CacheAfter(start, statuses[..i])
      {
        var s := statuses[i];
        assert statuses[..i + 1][..i] == statuses[..i];
        statusCache := statusCache[s.id := StatusInfo(s.name, MainPipelineId, s.sort, ClassifyStatusTypeOrOther(s.name))];
        i := i + 1;
      }
      assert statuses[..i] == statuses;
      CacheAfterMain(start, statuses);
    }

    /** The stage records of one lead from its (sorted) status-change events. */
    method CalculateLeadFunnelMetrics(lead: LeadRow, events: seq<Event>, loss: Option<LossReason>, now: int)
      returns (records: seq<StageRecord>)
      ensures records == LeadRecords(statusCache, lead, events, loss, now)
    {
      if lead.pipelineId != MainPipelineId {
        return [];
      }
      var price := lead.price.Get(0.0);
      if events == [] {
        if price.None? {
          return [];
        }
        return [CurrentStatusRecord(statusCache, lead, price.value, loss, now)];
      }
      records := [];
      var i := 0;
      while i < |events|
        invariant 0 <= i <= |events|
        invariant records == EventRecords(statusCache, lead, events, i, loss, now)
      {
        var rec := StageRecordAt(lead, events, i, price, loss, now);
        if rec.Some? {
          records := records + [rec.value];
        }
        i := i + 1;
      }
    }

    /** One turn of the loop: the record event `i` emits, if any. */
    method StageRecordAt(lead: LeadRow, events: seq<Event>, i: nat, price: Option<real>,
                         loss: Option<LossReason>, now: int)
      returns (rec: Option<StageRecord>)
      requires i < |events| && price == lead.price.Get(0.0)
      ensures rec == EventRecord(statusCache, lead, events, i, loss, now)
    {
      rec := None;
      var e := events[i];
      if Truthy(e.newStatus) && e.newStatus.value in statusCache {
        var info := statusCache[e.newStatus.value];
        if info.pipelineId == MainPipelineId && price.Some? {
          var next: Option<StatusInfo> := None;
          if i < |events| - 1 {
            var nextId := events[i + 1].newStatus;
            if nextId.Some? && nextId.value in statusCache {
              next := Some(statusCache[nextId.value]);
            }
          }
          var exit: Option<int>;
          var hours: real;
          var isCurrent: bool;
          if i < |events| - 1 {
            exit := Some(events[i + 1].createdAt);
            hours := Hours(e.createdAt, events[i + 1].createdAt);
            isCurrent := false;
          } else {
            exit := None;
            hours := Hours(e.createdAt, now);
            isCurrent := true;
          }
          var conversion: Option<Transition> := None;
          var nextType: Option<Bucket> := None;
          if next.Some? {
            nextType := Some(next.value.bucket);
            conversion := Some(DetermineConversion(Some(info.bucket), nextType));
          } else if info.bucket == Lost {
            conversion := Some(ToLost);
          } else if info.bucket == Won {
            conversion := Some(ToWon);
          }
          var lost := info.bucket == Lost;
          rec := Some(StageRecord(
            lead.id, e.newStatus.value, info.name, info.bucket, info.sort,
            e.createdAt, exit, hours, isCurrent, conversion, nextType,
            price.value, lead.responsibleUserId,
            if lost then LossId(loss) else None,
            if lost then LossName(loss) else None));
        }
      }
    }

    /**
     * Groups the events by lead, sorts each lead's list in place by time and
     * reconstructs every lead's history. The sorted list replaces the group,
     * as the in-place sort of the dictionary's list does.
     */
    method TransformFunnelData(leads: seq<LeadRow>, events: seq<Event>, losses: map<int, LossReason>, now: int)
      returns (records: seq<StageRecord>)
      ensures records == FunnelHistory(statusCache, leads, events, losses, now)
    {
      var groups := GroupEvents(events);
      records := [];
      var j := 0;
      while j < |leads|
        invariant 0 <= j <= |leads|
        invariant records == FunnelHistory(statusCache, leads[..j], events, losses, now)
        invariant GroupsMatch(groups, events)
      {
        records, groups := ProcessNextLead(leads, j, records, groups, events, losses, now);
        j := j + 1;
      }
      assert leads[..j] == leads;
    }

    /** One turn of the loop: the history of lead `j` is appended to the records so far. */
    method ProcessNextLead(leads: seq<LeadRow>, j: nat, records: seq<StageRecord>, groups: map<int, seq<Event>>,
                           events: seq<Event>, losses: map<int, LossReason>, now: int)
      returns (records': seq<StageRecord>, groups': map<int, seq<Event>>)
      requires j < |leads|
      requires records == FunnelHistory(statusCache, leads[..j], events, losses, now)
      requires GroupsMatch(groups, events)
      ensures records' == FunnelHistory(statusCache, leads[..j + 1], events, losses, now)
      ensures GroupsMatch(groups', events)
    {
      var recs;
      recs, groups' := ProcessLead(leads[j], groups, events, losses, now);
      FunnelHistorySnoc(statusCache, leads, j, events, losses, now);
      records' := records + recs;
    }

    /** One lead of the loop: its group is sorted in place and its history reconstructed. */
    method ProcessLead(lead: LeadRow, groups: map<int, seq<Event>>, events: seq<Event>,
                       losses: map<int, LossReason>, now: int)
      returns (recs: seq<StageRecord>, groups': map<int, seq<Event>>)
      requires GroupsMatch(groups, events)
      ensures GroupsMatch(groups', events)
      ensures recs == LeadRecords(statusCache, lead, SortByKey(EventsOf(events, lead.id), CreatedAt),
                                  if lead.id in losses then Some(losses[lead.id]) else None, now)
    {
      var changes := if lead.id in groups then groups[lead.id] else [];
      var sorted := SortEvents(changes);
      GroupsMatchLookup(groups, events, lead.id);
      groups' := groups;
      if lead.id in groups {
        GroupsMatchUpdate(groups, events, lead.id);
        groups' := groups[lead.id := sorted];
      }
      var loss := if lead.id in losses then Some(losses[lead.id]) else None;
      recs := CalculateLeadFunnelMetrics(lead, sorted, loss, now);
    }
  }

  /** Each group, once sorted, is the sorted list of that lead's events; leads without a group have none. */
  ghost predicate GroupsMatch(groups: map<int, seq<Event>>, events: seq<Event>) {
    (forall k :: k in groups ==> SortByKey(groups[k], CreatedAt) == SortByKey(EventsOf(events, k), CreatedAt))
    && (forall k :: k !in groups ==> EventsOf(events, k) == [])
  }

  /** The grouping before any list is sorted already matches. */
  method GroupEvents(events: seq<Event>) returns (groups: map<int, seq<Event>>)
    ensures GroupsMatch(groups, events)
  {
    groups := GroupByLead(events);
  }

  lemma GroupsMatchLookup(groups: map<int, seq<Event>>, events: seq<Event>, id: int)
    requires GroupsMatch(groups, events)
    ensures SortByKey(if id in groups then groups[id] else [], CreatedAt) == SortByKey(EventsOf(events, id), CreatedAt)
  {
  }

  /** Replacing a group by its sorted list, as the in-place sort does, keeps the groups matching. */
  lemma GroupsMatchUpdate(groups: map<int, seq<Event>>, events: seq<Event>, id: int)
    requires GroupsMatch(groups, events) && id in groups
    ensures GroupsMatch(groups[id := SortByKey(EventsOf(events, id), CreatedAt)], events)
  {
    SortByKeyIdempotent(EventsOf(events, id), CreatedAt);
  }

  /** The `status_changes_by_lead` dictionary: each lead's events, in their original order. */
  method GroupByLead(events: seq<Event>) returns (groups: map<int, seq<Event>>)
    ensures forall k :: k in groups ==> groups[k] == EventsOf(events, k)
    ensures forall k :: k !in groups ==> EventsOf(events, k) == []
  {
    groups := map[];
    var i := 0;
    while i < |events|
      invariant 0 <= i <= |events|
      invariant forall k :: k in groups ==> groups[k] == EventsOf(events[..i], k)
      invariant forall k :: k !in groups ==> EventsOf(events[..i], k) == []
    {
      var id := events[i].entityId;
      var group := if id in groups then groups[id] else [];
      ghost var before := groups;
      groups := groups[id := group + [events[i]]];
      forall k
        ensures k in groups ==> groups[k] == EventsOf(events[..i + 1], k)
        ensures k !in groups ==> EventsOf(events[..i + 1], k) == []
      {
        EventsOfSnoc(events, i, k);
      }
      i := i + 1;
    }
    assert events[..i] == events;
  }

  /** Extending the prefix by one event extends each lead's list by that event, if it is the lead's. */
  lemma EventsOfSnoc(events: seq<Event>, i: nat, k: int)
    requires i < |events|
    ensures EventsOf(events[..i + 1], k)
            == EventsOf(events[..i], k) + (if events[i].entityId == k then [events[i]] else [])
  {
    assert events[..i + 1][..i] == events[..i];
  }
}
