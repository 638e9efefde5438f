/**
 * Deal conversion records: every lead gets its status bucket, its sales cycle
 * in whole days, the time it first reached a proposal, its loss reason and the
 * won / lost / proposal flags and revenue; per-user and team win rates are
 * derived from the records.
 */
module Conversion {
  import opened Wrappers
  import opened Text
  import opened Sorting
  import opened Crm
  import opened Rates

  // ---------------------------------------------------------------------------
  // Status classification
  // ---------------------------------------------------------------------------

  const WonWords: seq<string> := ["ganho", "fechado", "won", "vendido", "sucesso", "venda ganha"]
  const LostWords: seq<string> := ["perdido", "lost", "cancelado", "rejeitado", "venda perdida"]
  const ProposalWords: seq<string> := ["proposta", "proposal", "orçamento", "cotação", "oferta feita"]
  const NegotiationWords: seq<string> := ["negociação", "negotiation", "negociação"]
  const MeetingWords: seq<string> := ["reunião", "meeting", "apresentação"]
  const QualifiedWords: seq<string> := ["qualificado", "qualified", "interesse"]
  const LeadWords: seq<string> := ["novo", "lead", "contato", "leads de entrada"]

  /**
   * The conversion classifier: keyword groups on the lower-cased name in the
   * order won, lost, proposal, negotiation, meeting, qualified, lead; `Other`
   * when none matches. It never yields a failed meeting.
   */
  function ClassifyStatusForConversion(name: string): (r: Bucket)
    ensures r != MeetingFailed
    ensures r == Won <==> ContainsAny(Lower(name), WonWords)
    ensures r == Other <==>
              !ContainsAny(Lower(name), WonWords) && !ContainsAny(Lower(name), LostWords)
              && !ContainsAny(Lower(name), ProposalWords) && !ContainsAny(Lower(name), NegotiationWords)
              && !ContainsAny(Lower(name), MeetingWords) && !ContainsAny(Lower(name), QualifiedWords)
              && !ContainsAny(Lower(name), LeadWords)
  {
    var s := Lower(name);
    if ContainsAny(s, WonWords) then Won
    else if ContainsAny(s, LostWords) then Lost
    else if ContainsAny(s, ProposalWords) then Proposal
    else if ContainsAny(s, NegotiationWords) then Negotiation
    else if ContainsAny(s, MeetingWords) then Meeting
    else if ContainsAny(s, QualifiedWords) then Qualified
    else if ContainsAny(s, LeadWords) then Lead
    else Other
  }

  /** A name matching both a won and a lost keyword counts as won: the won group is tested first. */
  lemma WonBeforeLost(name: string)
    requires ContainsAny(Lower(name), WonWords) && ContainsAny(Lower(name), LostWords)
    ensures ClassifyStatusForConversion(name) == Won
  {
  }

  /** Such names exist: "won/lost" matches a keyword of both groups and is classified won. */
  lemma WonAndLostOverlap()
    ensures ContainsAny(Lower("won/lost"), WonWords) && ContainsAny(Lower("won/lost"), LostWords)
    ensures ClassifyStatusForConversion("won/lost") == Won
  {
    LowerOfLowerCase("won/lost");
    WonInWonLost();
    LostInWonLost();
  }

  lemma WonInWonLost()
    ensures Contains("won/lost", WonWords[2])
  {
    assert StartsWith("won/lost", WonWords[2]);
  }

  lemma LostInWonLost()
    ensures Contains("won/lost", LostWords[1])
  {
    var s := "won/lost";
    assert s[1..][1..][1..][1..] == s[4..];
    assert StartsWith(s[4..], LostWords[1]);
  }

  // ---------------------------------------------------------------------------
  // Entities
  // ---------------------------------------------------------------------------

  /** An entry of the status cache: the status name and its conversion bucket. */
  datatype StatusInfo = StatusInfo(name: Option<string>, pipelineId: int, bucket: Bucket)

  datatype UserInfo = UserInfo(name: Option<string>)

  /** The `loss_reason` object embedded in a lead; a missing, `null` or empty one is `None` in the lead. */
  datatype LossObject = LossObject(name: Slot<string>)

  /** A lead with the fields the conversion step reads. */
  datatype LeadRow = LeadRow(
    id: int,
    statusId: int,
    pipelineId: int,
    createdAt: int,
    updatedAt: int,
    price: Slot<real>,
    responsibleUserId: Option<int>,
    lossReason: Option<LossObject>,
    customFields: Slot<seq<CustomField>>,
    contactCount: nat)

  /** `status_cache.get(id, {}).get('type')` */
  function TypeOf(cache: map<int, StatusInfo>, id: Option<int>): Option<Bucket> {
    if id.Some? && id.value in cache then Some(cache[id.value].bucket) else None
  }

  /** `timedelta.days` between two timestamps: whole days, rounded down. */
  function Days(from: int, to: int): int {
    (to - from) / 86400
  }

  function Max0(x: int): (r: nat)
    ensures r >= x
  {
    if x > 0 then x else 0
  }

  // ---------------------------------------------------------------------------
  // Sales cycle
  // ---------------------------------------------------------------------------

  predicate IsClosing(cache: map<int, StatusInfo>, e: Event) {
    TypeOf(cache, e.newStatus) in {Some(Won), Some(Lost)}
  }

  /** The time of the last event in `s` that moves to a won or lost status. */
  function LastClosing(cache: map<int, StatusInfo>, s: seq<Event>): Option<int> {
    if s == [] then None
    else if IsClosing(cache, s[|s| - 1]) then Some(s[|s| - 1].createdAt)
    else LastClosing(cache, s[..|s| - 1])
  }

  /** The closing event found is a closing event, and there is one exactly when some event closes. */
  lemma {:induction false} LastClosingFound(cache: map<int, StatusInfo>, s: seq<Event>)
    ensures LastClosing(cache, s).Some? <==> exists e :: e in s && IsClosing(cache, e)
    ensures LastClosing(cache, s).Some? ==>
              exists e :: e in s && IsClosing(cache, e) && e.createdAt == LastClosing(cache, s).value
  {
    if s != [] && !IsClosing(cache, s[|s| - 1]) {
      LastClosingFound(cache, s[..|s| - 1]);
      assert s == s[..|s| - 1] + [s[|s| - 1]];
    }
  }

  /** On time-ordered events the closing time is the latest time of any closing event. */
  lemma {:induction false} LastClosingIsLatest(cache: map<int, StatusInfo>, s: seq<Event>)
    requires SortedByKey(s, CreatedAt)
    ensures forall e :: e in s && IsClosing(cache, e) ==> LastClosing(cache, s).Some? && e.createdAt <= LastClosing(cache, s).value
  {
    if s != [] {
      var init := s[..|s| - 1];
      assert SortedByKey(init, CreatedAt);
      if IsClosing(cache, s[|s| - 1]) {
        forall e | e in s
          ensures e.createdAt <= s[|s| - 1].createdAt
        {
          var k :| 0 <= k < |s| && s[k] == e;
          assert CreatedAt(s[k]) <= CreatedAt(s[|s| - 1]) || k == |s| - 1;
        }
      } else {
        LastClosingIsLatest(cache, init);
        assert s == init + [s[|s| - 1]];
      }
    }
  }

  /**
   * `calculate_sales_cycle`: only for a lead whose current status is won or
   * lost; days from creation to the last closing event among its lead-typed
   * events, or to `updated_at` when there are none or none closes; never negative.
   */
  function SalesCycleOf(cache: map<int, StatusInfo>, lead: LeadRow, events: seq<Event>): Option<nat> {
    if TypeOf(cache, Some(lead.statusId)) !in {Some(Won), Some(Lost)} then None
    else
      var mine := LeadEventsOf(events, lead.id);
      if mine == [] then Some(Max0(Days(lead.createdAt, lead.updatedAt)))
      else
        var closing := LastClosing(cache, SortByKey(mine, CreatedAt));
        Some(Max0(Days(lead.createdAt, closing.GetOr(lead.updatedAt))))
  }

  /** Sorting keeps exactly the events it was given. */
  lemma SortedSameEvents(s: seq<Event>)
    ensures forall e :: e in SortByKey(s, CreatedAt) <==> e in s
  {
    SortByKeyCorrect(s, CreatedAt);
    forall e | e in s ensures e in SortByKey(s, CreatedAt) {
      assert e in multiset(s);
    }
    forall e | e in SortByKey(s, CreatedAt) ensures e in s {
      assert e in multiset(SortByKey(s, CreatedAt));
    }
  }

  /**
   * The cycle exists exactly for closed deals, and when the lead's events
   * close it, it ends at the newest closing event.
   */
  lemma SalesCycleShape(cache: map<int, StatusInfo>, lead: LeadRow, events: seq<Event>)
    ensures SalesCycleOf(cache, lead, events).Some? <==> TypeOf(cache, Some(lead.statusId)) in {Some(Won), Some(Lost)}
    ensures var mine := LeadEventsOf(events, lead.id);
            SalesCycleOf(cache, lead, events).Some? && (exists e :: e in mine && IsClosing(cache, e)) ==>
              exists e :: e in mine && IsClosing(cache, e)
                          && SalesCycleOf(cache, lead, events).value == Max0(Days(lead.createdAt, e.createdAt))
                          && forall e' :: e' in mine && IsClosing(cache, e') ==> e'.createdAt <= e.createdAt
  {
    var mine := LeadEventsOf(events, lead.id);
    if SalesCycleOf(cache, lead, events).Some? && (exists e :: e in mine && IsClosing(cache, e)) {
      var sorted := SortByKey(mine, CreatedAt);
      SortByKeyCorrect(mine, CreatedAt);
      SortedSameEvents(mine);
      assert mine != [];
      LastClosingFound(cache, sorted);
      LastClosingIsLatest(cache, sorted);
      var e :| e in sorted && IsClosing(cache, e) && e.createdAt == LastClosing(cache, sorted).value;
      assert SalesCycleOf(cache, lead, events).value == Max0(Days(lead.createdAt, e.createdAt));
      assert e in mine;
    }
  }

  /**
   * A closed deal whose lead-typed events never reach a won or lost status,
   * including one without any such event, counts its cycle up to `updated_at`.
   */
  lemma SalesCycleFallsBack(cache: map<int, StatusInfo>, lead: LeadRow, events: seq<Event>)
    requires TypeOf(cache, Some(lead.statusId)) in {Some(Won), Some(Lost)}
    requires forall e :: e in LeadEventsOf(events, lead.id) ==> !IsClosing(cache, e)
    ensures SalesCycleOf(cache, lead, events) == Some(Max0(Days(lead.createdAt, lead.updatedAt)))
  {
    var mine := LeadEventsOf(events, lead.id);
    if mine != [] {
      SortedSameEvents(mine);
      LastClosingFound(cache, SortByKey(mine, CreatedAt));
    }
  }

  // ---------------------------------------------------------------------------
  // Proposal stage
  // ---------------------------------------------------------------------------

  predicate IsProposalMove(cache: map<int, StatusInfo>, e: Event) {
    TypeOf(cache, e.newStatus) == Some(Proposal)
  }

  /** The time of the first event in `s` that moves to a proposal status. */
  function FirstProposal(cache: map<int, StatusInfo>, s: seq<Event>): Option<int> {
    if s == [] then None
    else if IsProposalMove(cache, s[0]) then Some(s[0].createdAt)
    else FirstProposal(cache, s[1..])
  }

  /** On time-ordered events the first proposal time is the earliest time of any proposal move. */
  lemma {:induction false} FirstProposalIsEarliest(cache: map<int, StatusInfo>, s: seq<Event>)
    requires SortedByKey(s, CreatedAt)
    ensures FirstProposal(cache, s).Some? <==> exists e :: e in s && IsProposalMove(cache, e)
    ensures forall e :: e in s && IsProposalMove(cache, e) ==>
              FirstProposal(cache, s).Some? && FirstProposal(cache, s).value <= e.createdAt
  {
    if s != [] {
      SortedHead(s, CreatedAt);
      FirstProposalIsEarliest(cache, s[1..]);
      assert forall e :: e in s <==> e == s[0] || e in s[1..];
    }
  }

  /**
   * `identify_proposal_stage`: the earliest move to a proposal status among
   * the lead's events (any entity type); failing that the creation time when
   * the current status is a proposal; otherwise `None`.
   */
  function ProposalDateOf(cache: map<int, StatusInfo>, lead: LeadRow, events: seq<Event>): Option<int> {
    var first := FirstProposal(cache, SortByKey(EventsOf(events, lead.id), CreatedAt));
    if first.Some? then first
    else if TypeOf(cache, Some(lead.statusId)) == Some(Proposal) then Some(lead.createdAt)
    else None
  }

  /** A first proposal time found is the time of a proposal move. */
  lemma {:induction false} FirstProposalAttained(cache: map<int, StatusInfo>, s: seq<Event>)
    ensures FirstProposal(cache, s).Some? ==>
              exists e :: e in s && IsProposalMove(cache, e) && e.createdAt == FirstProposal(cache, s).value
  {
    if s != [] && !IsProposalMove(cache, s[0]) {
      FirstProposalAttained(cache, s[1..]);
      assert forall e :: e in s[1..] ==> e in s;
    }
  }

  /**
   * The proposal date is the time of the lead's earliest move to a proposal;
   * without such a move, a lead sitting in a proposal status dates from its creation.
   */
  lemma ProposalDateAttained(cache: map<int, StatusInfo>, lead: LeadRow, events: seq<Event>)
    ensures (exists e :: e in EventsOf(events, lead.id) && IsProposalMove(cache, e)) ==>
              ProposalDateOf(cache, lead, events).Some?
              && exists e :: e in EventsOf(events, lead.id) && IsProposalMove(cache, e)
                             && ProposalDateOf(cache, lead, events).value == e.createdAt
    ensures (forall e :: e in EventsOf(events, lead.id) ==> !IsProposalMove(cache, e))
              && TypeOf(cache, Some(lead.statusId)) == Some(Proposal) ==>
              ProposalDateOf(cache, lead, events) == Some(lead.createdAt)
  {
    var mine := EventsOf(events, lead.id);
    var sorted := SortByKey(mine, CreatedAt);
    SortByKeyCorrect(mine, CreatedAt);
    SortedSameEvents(mine);
    FirstProposalIsEarliest(cache, sorted);
    FirstProposalAttained(cache, sorted);
  }

  /** A proposal date exists exactly when some event reaches a proposal or the lead sits in one. */
  lemma ProposalDateExists(cache: map<int, StatusInfo>, lead: LeadRow, events: seq<Event>)
    ensures ProposalDateOf(cache, lead, events).Some? <==>
              (exists e :: e in EventsOf(events, lead.id) && IsProposalMove(cache, e))
              || TypeOf(cache, Some(lead.statusId)) == Some(Proposal)
    ensures forall e :: e in EventsOf(events, lead.id) && IsProposalMove(cache, e) ==>
              ProposalDateOf(cache, lead, events).Some? && ProposalDateOf(cache, lead, events).value <= e.createdAt
  {
    var mine := EventsOf(events, lead.id);
    var sorted := SortByKey(mine, CreatedAt);
    SortByKeyCorrect(mine, CreatedAt);
    FirstProposalIsEarliest(cache, sorted);
    SortedSameEvents(mine);
  }

  // ---------------------------------------------------------------------------
  // Loss reason
  // ---------------------------------------------------------------------------

  /** The outcome of scanning the custom fields: a value, nothing, or an exception. */
  datatype Scan = Found(value: string) | NotFound | Raised

  /** The field name mentions a loss reason. */
  predicate IsReasonName(lower: string) {
    Contains(lower, "motivo") || Contains(lower, "reason") || Contains(lower, "perda")
  }

  /** The first value of the field, when its `values` list is non-empty and that value is truthy. */
  function FirstTruthyValue(f: CustomField): Option<FieldValue> {
    match f.values
    case Present(vs) =>
      if vs != [] && vs[0].Present? && ValueTruthy(vs[0].value) then Some(vs[0].value) else None
    case _ => None
  }

  /** The field is a reason field with a truthy value; a `null` name raises. */
  predicate Qualifies(f: CustomField) {
    !f.fieldName.Null? && IsReasonName(Lower(f.fieldName.Get("").value)) && FirstTruthyValue(f).Some?
  }

  /** Scans the custom fields in order for the first reason field that has a truthy value. */
  function ScanReasonFields(fields: seq<CustomField>): Scan {
    if fields == [] then NotFound
    else if fields[0].fieldName.Null? then Raised
    else if Qualifies(fields[0]) then Found(Render(FirstTruthyValue(fields[0]).value))
    else ScanReasonFields(fields[1..])
  }

  /** A value found comes from the first qualifying field, and no earlier field raised. */
  lemma {:induction false} ScanFindsFirst(fields: seq<CustomField>)
    ensures ScanReasonFields(fields).Found? ==>
              exists i :: 0 <= i < |fields| && Qualifies(fields[i])
                          && ScanReasonFields(fields).value == Render(FirstTruthyValue(fields[i]).value)
                          && forall j :: 0 <= j < i ==> !Qualifies(fields[j]) && !fields[j].fieldName.Null?
  {
    if fields != [] && !fields[0].fieldName.Null? && !Qualifies(fields[0]) {
      var rest := fields[1..];
      ScanFindsFirst(rest);
      if ScanReasonFields(fields).Found? {
        var i :| 0 <= i < |rest| && Qualifies(rest[i])
                 && ScanReasonFields(rest).value == Render(FirstTruthyValue(rest[i]).value)
                 && forall j :: 0 <= j < i ==> !Qualifies(rest[j]) && !rest[j].fieldName.Null?;
        assert fields[i + 1] == rest[i];
        assert forall j :: 1 <= j < i + 1 ==> fields[j] == rest[j - 1];
      }
    }
  }

  /** Nothing is found exactly when no field qualifies and none has a null name. */
  lemma {:induction false} ScanFindsNothing(fields: seq<CustomField>)
    ensures ScanReasonFields(fields).NotFound? <==>
              forall j :: 0 <= j < |fields| ==> !Qualifies(fields[j]) && !fields[j].fieldName.Null?
  {
    if fields != [] && !fields[0].fieldName.Null? && !Qualifies(fields[0]) {
      var rest := fields[1..];
      ScanFindsNothing(rest);
      assert forall j :: 1 <= j < |fields| ==> fields[j] == rest[j - 1];
    }
  }

  /**
   * `extract_loss_reason`: the name of the lead's `loss_reason` object (the
   * default when it has no `name` key, `None` when it is `null`); else the first
   * reason field's value; else "Não especificado"; "Erro" when a field name is `null`.
   */
  function ExtractLossReason(lead: LeadRow): (r: Option<string>)
    ensures lead.lossReason.Some? && lead.lossReason.value.name.Present? ==> r == Some(lead.lossReason.value.name.value)
    ensures lead.lossReason.Some? && lead.lossReason.value.name.Absent? ==> r == Some("Não especificado")
    ensures lead.lossReason.Some? && lead.lossReason.value.name.Null? ==> r.None?
    ensures lead.lossReason.None? && ScanReasonFields(FieldsOf(lead)).Found? ==>
              r == Some(ScanReasonFields(FieldsOf(lead)).value)
    ensures lead.lossReason.None? && ScanReasonFields(FieldsOf(lead)).NotFound? ==> r == Some("Não especificado")
    ensures lead.lossReason.None? && ScanReasonFields(FieldsOf(lead)).Raised? ==> r == Some("Erro")
    ensures r.None? ==> lead.lossReason.Some?
  {
    if lead.lossReason.Some? then lead.lossReason.value.name.Get("Não especificado")
    else
      match ScanReasonFields(FieldsOf(lead))
      case Found(v) => Some(v)
      case NotFound => Some("Não especificado")
      case Raised => Some("Erro")
  }

  /** `custom_fields_values`, with a missing or `null` list read as empty. */
  function FieldsOf(lead: LeadRow): seq<CustomField> {
    if lead.customFields.Present? then lead.customFields.value else []
  }

  /** Without a loss object and without custom fields, the reason is "Não especificado". */
  lemma LossReasonDefault(lead: LeadRow)
    requires lead.lossReason.None? && FieldsOf(lead) == []
    ensures ExtractLossReason(lead) == Some("Não especificado")
  {
  }

  // ---------------------------------------------------------------------------
  // Conversion records
  // ---------------------------------------------------------------------------

  /** A row of `sales_conversions`. */
  datatype ConversionRecord = ConversionRecord(
    leadId: int,
    pipelineId: int,
    statusId: int,
    statusName: Option<string>,
    statusType: Bucket,
    responsibleUserId: Option<int>,
    responsibleUserName: Option<string>,
    createdAt: int,
    updatedAt: int,
    proposalDate: Option<int>,
    leadValue: real,
    revenueGenerated: real,
    isWon: bool,
    isLost: bool,
    isProposal: bool,
    salesCycleDays: Option<nat>,
    lossReason: Option<string>,
    wonFromProposal: bool,
    contactCount: nat)

  /** The record of one lead, or `None` when `float(price)` raises on a `null` price. */
  function RecordOf(cache: map<int, StatusInfo>, users: map<int, UserInfo>, lead: LeadRow,
                    cycle: Option<nat>, proposal: Option<int>): Option<ConversionRecord>
  {
    var value := lead.price.Get(0.0);
    if value.None? then None
    else
      var known := lead.statusId in cache;
      var statusType := if known then cache[lead.statusId].bucket else Other;
      var isWon := statusType == Won;
      var isLost := statusType == Lost;
      var isProposal := statusType == Proposal || proposal.Some?;
      var uid := lead.responsibleUserId;
      Some(ConversionRecord(
        lead.id, lead.pipelineId, lead.statusId,
        if known then cache[lead.statusId].name else Some("Unknown"),
        statusType, uid,
        if uid.Some? && uid.value in users then users[uid.value].name else Some("Unknown"),
        lead.createdAt, lead.updatedAt, proposal,
        value.value, if isWon then value.value else 0.0,
        isWon, isLost, isProposal, cycle,
        if isLost then ExtractLossReason(lead) else None,
        isWon && isProposal,
        lead.contactCount))
  }

  /** What `transform_conversion_data` returns: one record per lead whose price is readable. */
  function ConversionRecords(cache: map<int, StatusInfo>, users: map<int, UserInfo>,
                             leads: seq<LeadRow>, events: seq<Event>): seq<ConversionRecord>
  {
    if leads == [] then []
    else
      var lead := leads[|leads| - 1];
      ConversionRecords(cache, users, leads[..|leads| - 1], events)
      + match RecordOf(cache, users, lead, SalesCycleOf(cache, lead, events), ProposalDateOf(cache, lead, events))
        case Some(r) => [r]
        case None => []
  }

  /** The flags of a record are consistent with each other and with its value. */
  predicate Consistent(r: ConversionRecord) {
    !(r.isWon && r.isLost)
    && r.revenueGenerated == (if r.isWon then r.leadValue else 0.0)
    && (r.lossReason.Some? ==> r.isLost)
    && r.wonFromProposal == (r.isWon && r.isProposal)
    && (r.isWon <==> r.statusType == Won)
    && (r.isLost <==> r.statusType == Lost)
  }

  /** Every record has consistent flags, and a closed deal carries a sales cycle. */
  lemma {:induction false} ConversionRecordsConsistent(cache: map<int, StatusInfo>, users: map<int, UserInfo>,
                                                       leads: seq<LeadRow>, events: seq<Event>)
    ensures forall r :: r in ConversionRecords(cache, users, leads, events) ==>
              Consistent(r) && ((r.isWon || r.isLost) ==> r.salesCycleDays.Some?)
    ensures |ConversionRecords(cache, users, leads, events)| <= |leads|
  {
    if leads != [] {
      ConversionRecordsConsistent(cache, users, leads[..|leads| - 1], events);
    }
  }

  /** A lead with a readable price gets exactly one record; one with a `null` price gets none. */
  lemma {:induction false} ConversionRecordsCount(cache: map<int, StatusInfo>, users: map<int, UserInfo>,
                                                  leads: seq<LeadRow>, events: seq<Event>)
    ensures |ConversionRecords(cache, users, leads, events)| == |NonNullPrice(leads)|
  {
    if leads != [] {
      ConversionRecordsCount(cache, users, leads[..|leads| - 1], events);
    }
  }

  function NonNullPrice(leads: seq<LeadRow>): seq<LeadRow> {
    if leads == [] then []
    else NonNullPrice(leads[..|leads| - 1]) + (if leads[|leads| - 1].price.Null? then [] else [leads[|leads| - 1]])
  }

  // ---------------------------------------------------------------------------
  // Rates
  // ---------------------------------------------------------------------------

  /** The counts the per-user query sums over a group of records. */
  datatype Totals = Totals(deals: nat, won: nat, lost: nat, proposals: nat, wonFromProposals: nat)

  function Tally(records: seq<ConversionRecord>): Totals {
    if records == [] then Totals(0, 0, 0, 0, 0)
    else
      var t := Tally(records[..|records| - 1]);
      var r := records[|records| - 1];
      Totals(t.deals + 1,
             t.won + (if r.isWon then 1 else 0),
             t.lost + (if r.isLost then 1 else 0),
             t.proposals + (if r.isProposal then 1 else 0),
             t.wonFromProposals + (if r.wonFromProposal then 1 else 0))
  }

  /** Over consistent records, wins and losses fit in the deals and wins from proposals in the proposals. */
  lemma {:induction false} TallyBounds(records: seq<ConversionRecord>)
    requires forall r :: r in records ==> Consistent(r)
    ensures var t := Tally(records);
              t.deals == |records| && t.won + t.lost <= t.deals
              && t.wonFromProposals <= t.proposals && t.wonFromProposals <= t.won
  {
    if records != [] {
      var init := records[..|records| - 1];
      assert forall r :: r in init ==> r in records;
      assert records[|records| - 1] in records;
      TallyBounds(init);
    }
  }

  datatype UserRates = UserRates(winRate: real, proposalWinRate: real)

  /** Per-user rates: wins over deals, and wins from proposals over proposals, each 0 on a zero denominator. */
  function UserRatesOf(t: Totals): UserRates {
    UserRates(Percent(t.won as real, t.deals as real), Percent(t.wonFromProposals as real, t.proposals as real))
  }

  /** The per-user rates of any group of records lie in [0, 100]. */
  lemma UserRatesBounded(cache: map<int, StatusInfo>, users: map<int, UserInfo>,
                         leads: seq<LeadRow>, events: seq<Event>, group: seq<ConversionRecord>)
    requires forall r :: r in group ==> r in ConversionRecords(cache, users, leads, events)
    ensures var u := UserRatesOf(Tally(group));
              0.0 <= u.winRate <= 100.0 && 0.0 <= u.proposalWinRate <= 100.0
  {
    ConversionRecordsConsistent(cache, users, leads, events);
    TallyBounds(group);
  }

  /** The team win rate: total wins over total deals, 0 without deals. */
  function TeamWinRate(teamDeals: nat, teamWon: nat): (r: real)
    ensures teamWon <= teamDeals ==> 0.0 <= r <= 100.0
    ensures teamDeals == 0 ==> r == 0.0
  {
    Percent(teamWon as real, teamDeals as real)
  }

  /** The team proposal win rate as written: all wins, not only wins from proposals, over the proposals. */
  function TeamProposalWinRateAsWritten(teamWon: nat, teamProposals: nat): (r: real)
    ensures teamProposals == 0 ==> r == 0.0
    ensures teamProposals > 0 ==> r * teamProposals as real == teamWon as real * 100.0
  {
    Percent(teamWon as real, teamProposals as real)
  }

  /** Three wins, only one of which went through a proposal, against one proposal give 300%. */
  lemma TeamProposalWinRateExceeds100()
    ensures var t := Tally([WonDeal(true), WonDeal(false), WonDeal(false)]);
              t.proposals == 1 && t.won == 3 && TeamProposalWinRateAsWritten(t.won, t.proposals) == 300.0
  {
    var rs := [WonDeal(true), WonDeal(false), WonDeal(false)];
    assert rs[..2] == [WonDeal(true), WonDeal(false)];
    assert rs[..2][..1] == [WonDeal(true)];
    assert rs[..2][..1][..0] == [];
    assert Tally([WonDeal(true)]) == Totals(1, 1, 0, 1, 1);
    assert Tally(rs[..2]) == Totals(2, 2, 0, 1, 1);
    assert Tally(rs) == Totals(3, 3, 0, 1, 1);
  }

  /** A won deal, with or without a proposal. */
  function WonDeal(proposal: bool): (r: ConversionRecord)
    ensures Consistent(r)
  {
    ConversionRecord(1, 1, 1, None, Won, None, None, 0, 0, None, 1.0, 1.0,
                     true, false, proposal, Some(0), None, proposal, 0)
  }

  /** The team proposal win rate over the wins that went through a proposal, as the per-user rate is. */
  function TeamProposalWinRate(teamWonFromProposals: nat, teamProposals: nat): real {
    Percent(teamWonFromProposals as real, teamProposals as real)
  }

  /** Summed over consistent records, the corrected team proposal win rate lies in [0, 100]. */
  lemma TeamProposalWinRateBounded(records: seq<ConversionRecord>)
    requires forall r :: r in records ==> Consistent(r)
    ensures var t := Tally(records);
              0.0 <= TeamProposalWinRate(t.wonFromProposals, t.proposals) <= 100.0
  {
    TallyBounds(records);
  }

  // ---------------------------------------------------------------------------
  // The ETL object
  // ---------------------------------------------------------------------------

  /** The conversion ETL step, holding the status and user caches it classifies with. */
  class ConversionEtl {
    var statusCache: map<int, StatusInfo>
    var usersCache: map<int, UserInfo>

    constructor (statuses: map<int, StatusInfo>, users: map<int, UserInfo>)
      ensures statusCache == statuses && usersCache == users
    {
      statusCache := statuses;
      usersCache := users;
    }

    /** The sales cycle of `lead`, filtering, sorting and scanning its events backwards. */
    method CalculateSalesCycle(lead: LeadRow, events: seq<Event>) returns (cycle: Option<nat>)
      ensures cycle == SalesCycleOf(statusCache, lead, events)
    {
      var current := TypeOf(statusCache, Some(lead.statusId));
      if current != Some(Won) && current != Some(Lost) {
        return None;
      }
      var mine := FilterLeadEvents(events, lead.id);
      if mine == [] {
        return Some(Max0(Days(lead.createdAt, lead.updatedAt)));
      }
      var sorted := SortEvents(mine);
      var closing := ScanLastClosing(sorted);
      var closeAt := if closing.Some? then closing.value else lead.updatedAt;
      cycle := Some(Max0(Days(lead.createdAt, closeAt)));
    }

    /** The backward scan for the newest event moving to a won or lost status. */
    method ScanLastClosing(sorted: seq<Event>) returns (closing: Option<int>)
      ensures closing == LastClosing(statusCache, sorted)
    {
      closing := None;
      var j := |sorted|;
      assert sorted[..j] == sorted;
      while j > 0 && closing.None?
        invariant 0 <= j <= |sorted|
        invariant closing.None? ==> LastClosing(statusCache, sorted) == LastClosing(statusCache, sorted[..j])
        invariant closing.Some? ==> closing == LastClosing(statusCache, sorted)
      {
        j := j - 1;
        assert sorted[..j + 1][..j] == sorted[..j];
        var e := sorted[j];
        if TypeOf(statusCache, e.newStatus) == Some(Won) || TypeOf(statusCache, e.newStatus) == Some(Lost) {
          closing := Some(e.createdAt);
        }
      }
    }

    /** When the lead reached a proposal, scanning its sorted events forwards. */
    method IdentifyProposalStage(lead: LeadRow, events: seq<Event>) returns (date: Option<int>)
      ensures date == ProposalDateOf(statusCache, lead, events)
    {
      var mine := FilterEvents(events, lead.id);
      var sorted := SortEvents(mine);
      var j := 0;
      while j < |sorted|
        invariant 0 <= j <= |sorted|
        invariant FirstProposal(statusCache, sorted) == FirstProposal(statusCache, sorted[j..])
      {
        assert sorted[j..][1..] == sorted[j + 1..];
        if TypeOf(statusCache, sorted[j].newStatus) == Some(Proposal) {
          return Some(sorted[j].createdAt);
        }
        j := j + 1;
      }
      if TypeOf(statusCache, Some(lead.statusId)) == Some(Proposal) {
        return Some(lead.createdAt);
      }
      return None;
    }

    /** One conversion record per lead; a lead whose price is `null` is skipped. */
    method TransformConversionData(leads: seq<LeadRow>, events: seq<Event>) returns (records: seq<ConversionRecord>)
      ensures records == ConversionRecords(statusCache, usersCache, leads, events)
    {
      records := [];
      var i := 0;
      while i < |leads|
        invariant 0 <= i <= |leads|
        invariant records == ConversionRecords(statusCache, usersCache, leads[..i], events)
      {
        var lead := leads[i];
        assert leads[..i + 1][..i] == leads[..i];
        var cycle := CalculateSalesCycle(lead, events);
        var proposal := IdentifyProposalStage(lead, events);
        var record := RecordOf(statusCache, usersCache, lead, cycle, proposal);
        if record.Some? {
          records := records + [record.value];
        }
        i := i + 1;
      }
      assert leads[..i] == leads;
    }
  }
}
