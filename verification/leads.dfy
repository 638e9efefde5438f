/**
 * Lead-source attribution: the custom fields of a lead (UTM parameters,
 * referrer, click ids and the "Origem Lead" field) are collected, a primary
 * source is chosen by a fixed priority, a detailed source string is built,
 * and the first response time and the acquisition cost are derived.
 */
module LeadSource {
  import opened Wrappers
  import opened Text
  import opened Sorting
  import opened Crm

  const Unclassified := "Não Classificado"

  // ---------------------------------------------------------------------------
  // Source-name standardisation
  // ---------------------------------------------------------------------------

  /** The standardisation table, keyed by the lower-cased, stripped name; its keys are distinct. */
  const StandardNames: seq<(string, string)> := [
    ("instagram", "Instagram"),
    ("insta", "Instagram"),
    ("instagran", "Instagram"),
    ("instragam", "Instagram"),
    ("midia paga", "Mídia Paga"),
    ("midias pagas", "Mídia Paga"),
    ("campanha paga", "Mídia Paga"),
    ("anuncio", "Anúncio"),
    ("anúncio", "Anúncio"),
    ("site", "Website Direto"),
    ("website", "Website Direto"),
    ("lp", "Landing Page"),
    ("landing page", "Landing Page"),
    ("lp dra. alice", "Landing Page"),
    ("bot", "Bot/Chatbot"),
    ("sem bot", "Sem Bot"),
    ("chatbot", "Bot/Chatbot"),
    ("formulario adv", "Formulário Advogado"),
    ("formulario advogado", "Formulário Advogado"),
    ("2", "Origem Não Especificada"),
    ("3", "Origem Não Especificada"),
    ("4", "Origem Não Especificada"),
    ("5", "Origem Não Especificada"),
    (".", "Origem Não Especificada"),
    ("indicacao", "Indicação"),
    ("indicação", "Indicação"),
    ("recomendação", "Indicação"),
    ("tik tok", "TikTok"),
    ("tiktok", "TikTok"),
    ("meta ads", "Meta Ads"),
    ("facebook ads", "Meta Ads"),
    ("facebook", "Meta Ads"),
    ("fb", "Meta Ads"),
    ("google ads", "Google Ads"),
    ("google", "Google Ads"),
    ("adwords", "Google Ads"),
    ("suporte", "Suporte Interno"),
    ("paciente", "Cliente Existente"),
    ("prospectei", "Outbound"),
    ("webconnect", "Ferramenta Externa"),
    ("uso período gratuíto", "Período Gratuito"),
    ("utilizava o basico", "Upgrade Cliente"),
    ("já conhecia desde 2023", "Cliente Antigo"),
    ("não sei", "Origem Desconhecida")]

  /** The table entry for `key`, if any. */
  function TableLookup(t: seq<(string, string)>, key: string): (r: Option<string>)
    ensures r.Some? <==> exists i :: 0 <= i < |t| && t[i].0 == key
    ensures r.Some? ==> exists i :: 0 <= i < |t| && t[i].0 == key && t[i].1 == r.value
  {
    if t == [] then None else if t[0].0 == key then Some(t[0].1) else TableLookup(t[1..], key)
  }

  /** Every name the table gives is non-empty. */
  lemma StandardNamesNonEmpty()
    ensures forall i :: 0 <= i < |StandardNames| ==> StandardNames[i].1 != ""
  {
  }

  /** `standardize_source_name`: the table entry of the normalised name, else the title-cased name. */
  function Standardize(name: string): (r: string)
    ensures name == "" ==> r == Unclassified
    ensures name != "" && TableLookup(StandardNames, Strip(Lower(name))).Some?
            ==> r == TableLookup(StandardNames, Strip(Lower(name))).value
    ensures name != "" && TableLookup(StandardNames, Strip(Lower(name))).None? ==> r == Title(name)
    ensures name != "" ==> r != ""
  {
    if name == "" then Unclassified
    else
      var entry := TableLookup(StandardNames, Strip(Lower(name)));
      StandardNamesNonEmpty();
      if entry.Some? then entry.value else Title(name)
  }

  // ---------------------------------------------------------------------------
  // The collected fields
  // ---------------------------------------------------------------------------

  const UtmSourceId := 47286
  const UtmMediumId := 47282
  const UtmCampaignId := 47284
  const UtmContentId := 47280
  const UtmTermId := 47288
  const UtmReferrerId := 47290
  const ReferrerId := 47292
  const OriginFieldId := 1100138
  const GclidId := 47296
  const FbclidId := 47298
  const GclientidId := 47294

  /** The custom field ids that are collected. */
  const KnownIds: set<int> := {
    UtmSourceId, UtmMediumId, UtmCampaignId, UtmContentId, UtmTermId, UtmReferrerId,
    ReferrerId, OriginFieldId, GclidId, FbclidId, GclientidId}

  /** `source_info`; an absent field is `None`. */
  datatype SourceInfo = SourceInfo(
    primary: string,
    utmSource: Option<string>,
    utmMedium: Option<string>,
    utmCampaign: Option<string>,
    utmContent: Option<string>,
    utmTerm: Option<string>,
    utmReferrer: Option<string>,
    referrer: Option<string>,
    originField: Option<string>,
    gclid: Option<string>,
    fbclid: Option<string>,
    gclientid: Option<string>,
    detailed: string)

  /** The text of a custom field's first value: `str(values[0].get('value', '')).strip()`. */
  function FirstValueText(f: CustomField): Option<string> {
    if !f.values.Present? || f.values.value == [] then None
    else
      var v := f.values.value[0];
      Some(Strip(match v
                 case Absent => ""
                 case Null => "None"
                 case Present(x) => Render(x)))
  }

  /** The value a field contributes: present, non-empty and not the words "null" or "none". */
  function Usable(f: CustomField): Option<string> {
    var t := FirstValueText(f);
    if t.None? || t.value == "" || Lower(t.value) == "null" || Lower(t.value) == "none" then None
    else t
  }

  /** The values gathered so far, by field id. */
  type Collected = map<int, string>

  /** What one field contributes: its id and usable value, when the id is one of the known fields. */
  function Entry(f: CustomField): (r: Option<(int, string)>)
    ensures r.Some? <==> Usable(f).Some? && f.fieldId.Some? && f.fieldId.value in KnownIds
    ensures r.Some? ==> r.value.0 == f.fieldId.value && r.value.1 == Usable(f).value
  {
    var u := Usable(f);
    if u.Some? && f.fieldId.Some? && f.fieldId.value in KnownIds then Some((f.fieldId.value, u.value)) else None
  }

  /** One step of the loop over the custom fields: a usable value of a known id is stored. */
  function Collect(m: Collected, f: CustomField): Collected {
    Store(m, Entry(f))
  }

  /** Stores one entry, if there is one. */
  function Store(m: Collected, e: Option<(int, string)>): Collected {
    if e.Some? then m[e.value.0 := e.value.1] else m
  }

  /** The entries of a list, stored in order; later entries overwrite earlier ones. */
  function StoreAll<T>(fs: seq<T>, entry: T -> Option<(int, string)>): Collected {
    if fs == [] then map[] else Store(StoreAll(fs[..|fs| - 1], entry), entry(fs[|fs| - 1]))
  }

  /** The values gathered from a list of fields, in order. */
  function CollectAll(fs: seq<CustomField>): Collected {
    StoreAll(fs, Entry)
  }

  /** Field `f` stores a usable value under `id`. */
  predicate Writes(f: CustomField, id: int) {
    Entry(f).Some? && Entry(f).value.0 == id
  }

  /** An id is stored exactly when some entry carries it. */
  lemma {:induction false} StoreAllHas<T>(fs: seq<T>, entry: T -> Option<(int, string)>, id: int)
    ensures id in StoreAll(fs, entry) <==> exists i :: 0 <= i < |fs| && entry(fs[i]).Some? && entry(fs[i]).value.0 == id
  {
    if fs != [] {
      var n := |fs| - 1;
      var init := fs[..n];
      StoreAllHas(init, entry, id);
      assert forall i :: 0 <= i < n ==> fs[i] == init[i];
    }
  }

  /** The value stored under an id is that of the last entry carrying it. */
  lemma {:induction false} StoreAllLastWins<T>(fs: seq<T>, entry: T -> Option<(int, string)>, id: int) returns (i: nat)
    requires id in StoreAll(fs, entry)
    ensures i < |fs| && entry(fs[i]).Some? && entry(fs[i]).value == (id, StoreAll(fs, entry)[id])
    ensures forall j :: i < j < |fs| ==> !(entry(fs[j]).Some? && entry(fs[j]).value.0 == id)
  {
    var n := |fs| - 1;
    var init := fs[..n];
    var e := entry(fs[n]);
    if e.Some? && e.value.0 == id {
      i := n;
    } else {
      i := StoreAllLastWins(init, entry, id);
      assert fs[i] == init[i];
      assert forall j :: i < j < n ==> fs[j] == init[j];
    }
  }

  /** One step stores under `id` exactly when the field writes `id`; other ids are untouched. */
  lemma CollectStep(m: Collected, f: CustomField, id: int)
    ensures Writes(f, id) ==> id in Collect(m, f) && Collect(m, f)[id] == Usable(f).value
    ensures !Writes(f, id) ==> (id in Collect(m, f) <==> id in m)
    ensures !Writes(f, id) && id in m ==> Collect(m, f)[id] == m[id]
  {
  }

  /** A known id holds a value exactly when some field stores one under it. */
  lemma CollectAllHas(fs: seq<CustomField>, id: int)
    ensures id in CollectAll(fs) <==> exists i :: 0 <= i < |fs| && Writes(fs[i], id)
  {
    StoreAllHas(fs, Entry, id);
  }

  /** The value stored under an id is that of the last field writing it: later fields overwrite earlier ones. */
  lemma CollectAllLastWins(fs: seq<CustomField>, id: int) returns (i: nat)
    requires id in CollectAll(fs)
    ensures i < |fs| && Writes(fs[i], id) && CollectAll(fs)[id] == Usable(fs[i]).value
    ensures forall j :: i < j < |fs| ==> !Writes(fs[j], id)
  {
    i := StoreAllLastWins(fs, Entry, id);
  }

  function Lookup(m: Collected, id: int): Option<string> {
    if id in m then Some(m[id]) else None
  }

  /** The source information before the primary and detailed sources are decided. */
  function InfoOf(m: Collected): SourceInfo {
    SourceInfo(
      Unclassified,
      Lookup(m, UtmSourceId), Lookup(m, UtmMediumId), Lookup(m, UtmCampaignId), Lookup(m, UtmContentId),
      Lookup(m, UtmTermId), Lookup(m, UtmReferrerId), Lookup(m, ReferrerId), Lookup(m, OriginFieldId),
      Lookup(m, GclidId), Lookup(m, FbclidId), Lookup(m, GclientidId),
      Unclassified)
  }

  // ---------------------------------------------------------------------------
  // Primary source
  // ---------------------------------------------------------------------------

  /** A string column used as a condition: `None` and "" are false. */
  predicate Filled(x: Option<string>) {
    x.Some? && x.value != ""
  }

  /** `value.lower()` when the value is truthy, else "". */
  function LowerOrEmpty(x: Option<string>): (r: string)
    ensures r == "" <==> !Filled(x)
    ensures Filled(x) ==> r == Lower(x.value)
  {
    if Filled(x) then Lower(x.value) else ""
  }

  /** The utm_source rules. */
  function FromUtmSource(source: string, medium: string): string {
    if Contains(source, "google") then
      if medium != "" && ContainsAny(medium, ["cpc", "paid", "ads"]) then "Google Ads" else "Google Orgânico"
    else if ContainsAny(source, ["facebook", "fb", "meta"]) then "Meta Ads"
    else if Contains(source, "instagram") then "Instagram"
    else if Contains(source, "site") || Contains(source, "website") then "Website Direto"
    else if ContainsAny(source, ["lp", "landing"]) then "Landing Page"
    else Standardize(source)
  }

  /** The utm_medium rules. */
  function FromUtmMedium(medium: string): string {
    if ContainsAny(medium, ["cpc", "paid", "ppc"]) then "Mídia Paga"
    else if ContainsAny(medium, ["organic", "orgânico"]) then "Orgânico"
    else if Contains(medium, "social") then "Redes Sociais"
    else if ContainsAny(medium, ["email", "newsletter"]) then "Email Marketing"
    else if Contains(medium, "referral") then "Indicação"
    else Standardize(medium)
  }

  /**
   * `determine_primary_source`: click ids first, then the standardised
   * "Origem Lead" field unless it standardises to "Não Classificado", then the
   * UTM source, then the UTM medium, then the referrer.
   */
  function DeterminePrimarySource(info: SourceInfo): string {
    var origin := LowerOrEmpty(info.originField);
    var source := LowerOrEmpty(info.utmSource);
    var medium := LowerOrEmpty(info.utmMedium);
    var referrer := LowerOrEmpty(info.referrer);
    if Filled(info.gclid) then "Google Ads"
    else if Filled(info.fbclid) then "Meta Ads"
    else if origin != "" && Standardize(origin) != Unclassified then Standardize(origin)
    else if source != "" then FromUtmSource(source, medium)
    else if medium != "" then FromUtmMedium(medium)
    else if referrer != "" then Standardize(referrer)
    else Unclassified
  }

  /** The UTM rules never produce an empty source. */
  lemma UtmRulesNonEmpty(source: string, medium: string)
    ensures source != "" ==> FromUtmSource(source, medium) != ""
    ensures medium != "" ==> FromUtmMedium(medium) != ""
  {
  }

  /** Click ids come first: gclid means Google Ads, then fbclid means Meta Ads. */
  lemma ClickIdsFirst(info: SourceInfo)
    ensures Filled(info.gclid) ==> DeterminePrimarySource(info) == "Google Ads"
    ensures !Filled(info.gclid) && Filled(info.fbclid) ==> DeterminePrimarySource(info) == "Meta Ads"
  {
  }

  /** Without click ids, an "Origem Lead" that standardises to a known name decides. */
  lemma OriginFieldNext(info: SourceInfo)
    requires !Filled(info.gclid) && !Filled(info.fbclid) && Filled(info.originField)
    requires Standardize(Lower(info.originField.value)) != Unclassified
    ensures DeterminePrimarySource(info) == Standardize(Lower(info.originField.value))
  {
  }

  /** Without click ids or a usable "Origem Lead", a filled UTM source decides through the utm_source rules. */
  lemma UtmSourceThird(info: SourceInfo)
    requires !Filled(info.gclid) && !Filled(info.fbclid)
    requires !Filled(info.originField) || Standardize(Lower(info.originField.value)) == Unclassified
    requires Filled(info.utmSource)
    ensures DeterminePrimarySource(info) == FromUtmSource(Lower(info.utmSource.value), LowerOrEmpty(info.utmMedium))
  {
  }

  /** With no UTM source either, a filled UTM medium decides through the utm_medium rules. */
  lemma UtmMediumFourth(info: SourceInfo)
    requires !Filled(info.gclid) && !Filled(info.fbclid)
    requires !Filled(info.originField) || Standardize(Lower(info.originField.value)) == Unclassified
    requires !Filled(info.utmSource) && Filled(info.utmMedium)
    ensures DeterminePrimarySource(info) == FromUtmMedium(Lower(info.utmMedium.value))
  {
  }

  /** With no UTM source or medium, a filled referrer decides by its standardised name. */
  lemma ReferrerLast(info: SourceInfo)
    requires !Filled(info.gclid) && !Filled(info.fbclid)
    requires !Filled(info.originField) || Standardize(Lower(info.originField.value)) == Unclassified
    requires !Filled(info.utmSource) && !Filled(info.utmMedium) && Filled(info.referrer)
    ensures DeterminePrimarySource(info) == Standardize(Lower(info.referrer.value))
  {
  }

  /** A lead is unclassified only when nothing usable decides, and the primary source is never empty. */
  lemma PrimarySourceFallback(info: SourceInfo)
    ensures (!Filled(info.gclid) && !Filled(info.fbclid) && !Filled(info.originField) && !Filled(info.utmSource)
             && !Filled(info.utmMedium) && !Filled(info.referrer)) ==> DeterminePrimarySource(info) == Unclassified
    ensures DeterminePrimarySource(info) != ""
  {
    UtmRulesNonEmpty(LowerOrEmpty(info.utmSource), LowerOrEmpty(info.utmMedium));
  }

  /**
   * A Google UTM source without click ids or a usable "Origem Lead" is paid
   * traffic exactly when the medium mentions cpc, paid or ads.
   */
  lemma GoogleSourceSplit(info: SourceInfo)
    requires !Filled(info.gclid) && !Filled(info.fbclid)
    requires !Filled(info.originField) || Standardize(Lower(info.originField.value)) == Unclassified
    requires Filled(info.utmSource) && Contains(Lower(info.utmSource.value), "google")
    ensures var r := DeterminePrimarySource(info);
              (r == "Google Ads" <==> Filled(info.utmMedium) && ContainsAny(Lower(info.utmMedium.value), ["cpc", "paid", "ads"]))
              && (r == "Google Ads" || r == "Google Orgânico")
  {
  }

  // ---------------------------------------------------------------------------
  // Detailed source and pipeline fallback
  // ---------------------------------------------------------------------------

  /** `"{caption}: {value}"` when the value is truthy, nothing otherwise. */
  function Part(caption: string, x: Option<string>): (r: seq<string>)
    ensures |r| <= 1
    ensures r != [] <==> Filled(x)
    ensures r != [] ==> r[0] == caption + ": " + x.value
  {
    if Filled(x) then [caption + ": " + x.value] else []
  }

  /** The positions of the truthy values, in ascending order. */
  function FilledPositions(fields: seq<Option<string>>): (r: seq<nat>)
    ensures |r| <= |fields|
    ensures forall k :: 0 <= k < |r| ==> r[k] < |fields| && Filled(fields[r[k]])
    ensures forall i :: 0 <= i < |fields| && Filled(fields[i]) ==> i in r
    ensures forall k, l :: 0 <= k < l < |r| ==> r[k] < r[l]
  {
    if fields == [] then []
    else
      var n := |fields| - 1;
      FilledPositions(fields[..n]) + (if Filled(fields[n]) then [n] else [])
  }

  /** One "caption: value" part per truthy value, in the order of the captions. */
  function CaptionedParts(captions: seq<string>, fields: seq<Option<string>>): (r: seq<string>)
    requires |captions| == |fields|
    ensures |r| == |FilledPositions(fields)|
    ensures forall k :: 0 <= k < |r| ==>
              r[k] == captions[FilledPositions(fields)[k]] + ": " + fields[FilledPositions(fields)[k]].value
  {
    if fields == [] then []
    else
      var n := |fields| - 1;
      CaptionedParts(captions[..n], fields[..n]) + Part(captions[n], fields[n])
  }

  /** The captions of the detailed source, in the order their parts appear. */
  const DetailCaptions: seq<string> :=
    ["Origem", "Source", "Medium", "Campaign", "Content", "Term", "Referrer", "GCLID", "FBCLID"]

  /** The field each caption of `DetailCaptions` shows. */
  function DetailFields(info: SourceInfo): seq<Option<string>> {
    [info.originField, info.utmSource, info.utmMedium, info.utmCampaign, info.utmContent, info.utmTerm,
     info.referrer, info.gclid, info.fbclid]
  }

  /** No position is filled exactly when none of the nine detailed-source fields is truthy. */
  lemma NoFilledPositions(info: SourceInfo)
    ensures FilledPositions(DetailFields(info)) == [] <==>
              !Filled(info.originField) && !Filled(info.utmSource) && !Filled(info.utmMedium)
              && !Filled(info.utmCampaign) && !Filled(info.utmContent) && !Filled(info.utmTerm)
              && !Filled(info.referrer) && !Filled(info.gclid) && !Filled(info.fbclid)
  {
    var fields := DetailFields(info);
    var ps := FilledPositions(fields);
    if ps != [] {
      assert Filled(fields[ps[0]]);
    }
    assert Filled(info.originField) ==> 0 in ps;
    assert Filled(info.utmSource) ==> 1 in ps;
    assert Filled(info.utmMedium) ==> 2 in ps;
    assert Filled(info.utmCampaign) ==> 3 in ps;
    assert Filled(info.utmContent) ==> 4 in ps;
    assert Filled(info.utmTerm) ==> 5 in ps;
    assert Filled(info.referrer) ==> 6 in ps;
    assert Filled(info.gclid) ==> 7 in ps;
    assert Filled(info.fbclid) ==> 8 in ps;
  }

  /**
   * The parts of the detailed source: exactly one "Caption: value" part for
   * each filled field, in the fixed caption order.
   */
  function DetailParts(info: SourceInfo): (r: seq<string>)
    ensures var ps := FilledPositions(DetailFields(info));
              |r| == |ps|
              && forall k :: 0 <= k < |r| ==> r[k] == DetailCaptions[ps[k]] + ": " + DetailFields(info)[ps[k]].value
    ensures |r| <= 9
    ensures r == [] <==> !Filled(info.originField) && !Filled(info.utmSource) && !Filled(info.utmMedium)
                         && !Filled(info.utmCampaign) && !Filled(info.utmContent) && !Filled(info.utmTerm)
                         && !Filled(info.referrer) && !Filled(info.gclid) && !Filled(info.fbclid)
    ensures Filled(info.originField) ==> r[0] == "Origem: " + info.originField.value
  {
    var fields := DetailFields(info);
    var ps := FilledPositions(fields);
    assert Filled(info.originField) ==> 0 in ps;
    NoFilledPositions(info);
    CaptionedParts(DetailCaptions, fields)
  }

  /** `get_detailed_source`: the parts joined with " | ", or the primary source when there are none. */
  function DetailedSource(info: SourceInfo): (r: string)
    ensures DetailParts(info) == [] ==> r == info.primary
    ensures DetailParts(info) != [] ==> r == Join(DetailParts(info), " | ")
    ensures Filled(info.originField) ==> StartsWith(r, "Origem: " + info.originField.value)
  {
    var parts := DetailParts(info);
    if parts == [] then info.primary
    else
      JoinStartsWithFirst(parts, " | ");
      Join(parts, " | ")
  }

  /** `get_source_from_pipeline`: pipelines 1 to 8 have a fixed source; any other gives "Não Classificado". */
  function SourceFromPipeline(pipelineId: Option<int>): (r: string)
    ensures r == Unclassified <==> !(pipelineId.Some? && 1 <= pipelineId.value <= 8)
  {
    if pipelineId == Some(1) then "Website"
    else if pipelineId == Some(2) then "Redes Sociais"
    else if pipelineId == Some(3) then "Google Ads"
    else if pipelineId == Some(4) then "Meta Ads"
    else if pipelineId == Some(5) then "Indicação"
    else if pipelineId == Some(6) then "Outbound"
    else if pipelineId == Some(7) then "Email Marketing"
    else if pipelineId == Some(8) then "Eventos"
    else Unclassified
  }

  // ---------------------------------------------------------------------------
  // Classifying a lead
  // ---------------------------------------------------------------------------

  /** The parts of a lead this module reads. */
  datatype LeadRecord = LeadRecord(
    id: int,
    pipelineId: Option<int>,
    createdAt: Slot<int>,
    customFields: Slot<seq<CustomField>>)

  /** `custom_fields_values` as a list; a missing or null list counts as empty. */
  function FieldsOf(lead: LeadRecord): seq<CustomField> {
    if lead.customFields.Present? then lead.customFields.value else []
  }

  /** The source information with the primary and detailed sources decided from it. */
  function Decide(m: Collected): (r: SourceInfo)
    ensures r.utmSource == Lookup(m, UtmSourceId) && r.utmMedium == Lookup(m, UtmMediumId)
            && r.utmCampaign == Lookup(m, UtmCampaignId) && r.utmContent == Lookup(m, UtmContentId)
            && r.utmTerm == Lookup(m, UtmTermId) && r.utmReferrer == Lookup(m, UtmReferrerId)
            && r.referrer == Lookup(m, ReferrerId) && r.originField == Lookup(m, OriginFieldId)
            && r.gclid == Lookup(m, GclidId) && r.fbclid == Lookup(m, FbclidId)
            && r.gclientid == Lookup(m, GclientidId)
    ensures r.primary == DeterminePrimarySource(r) && r.primary != ""
    ensures DetailParts(r) == [] ==> r.detailed == r.primary
    ensures DetailParts(r) != [] ==> r.detailed == Join(DetailParts(r), " | ")
  {
    var info := InfoOf(m);
    PrimarySourceFallback(info);
    var withPrimary := info.(primary := DeterminePrimarySource(info));
    withPrimary.(detailed := DetailedSource(withPrimary))
  }

  /** The classification `classify_lead_source_improved` returns. */
  function LeadSourceOf(lead: LeadRecord): SourceInfo {
    var fs := FieldsOf(lead);
    if fs == [] then InfoOf(map[]).(primary := SourceFromPipeline(lead.pipelineId))
    else Decide(CollectAll(fs))
  }

  /**
   * Without custom fields only the primary source is set, from the pipeline;
   * every UTM and click field is `None` and the detailed source stays "Não Classificado".
   */
  lemma NoFieldsUsesPipeline(lead: LeadRecord)
    requires FieldsOf(lead) == []
    ensures var r := LeadSourceOf(lead);
              r.primary == SourceFromPipeline(lead.pipelineId) && r.detailed == Unclassified
              && r.utmSource.None? && r.utmMedium.None? && r.utmCampaign.None? && r.utmContent.None?
              && r.utmTerm.None? && r.utmReferrer.None? && r.referrer.None? && r.originField.None?
              && r.gclid.None? && r.fbclid.None? && r.gclientid.None?
  {
  }

  /** Fields whose values are all unusable leave the lead unclassified. */
  lemma UnusableFieldsUnclassified(lead: LeadRecord)
    requires FieldsOf(lead) != []
    requires forall i :: 0 <= i < |FieldsOf(lead)| ==> Usable(FieldsOf(lead)[i]).None?
    ensures LeadSourceOf(lead).primary == Unclassified && LeadSourceOf(lead).detailed == Unclassified
  {
    var fs := FieldsOf(lead);
    forall id ensures id !in CollectAll(fs) {
      CollectAllHas(fs, id);
    }
    assert CollectAll(fs) == map[];
    PrimarySourceFallback(InfoOf(map[]));
    NoFilledPositions(Decide(map[]));
  }

  /** The loop of `classify_lead_source_improved`: a usable value of a known field id overwrites what was stored. */
  method CollectFields(fs: seq<CustomField>) returns (m: Collected)
    ensures m == CollectAll(fs)
  {
    m := map[];
    var i := 0;
    while i < |fs|
      invariant 0 <= i <= |fs|
      invariant m == CollectAll(fs[..i])
    {
      assert fs[..i + 1][..i] == fs[..i];
      assert fs[..i + 1][i] == fs[i];
      var value := Usable(fs[i]);
      if value.Some? && fs[i].fieldId.Some? && fs[i].fieldId.value in KnownIds {
        m := m[fs[i].fieldId.value := value.value];
      }
      i := i + 1;
    }
    assert fs[..i] == fs;
  }

  /** `classify_lead_source_improved`: one pass over the custom fields, later values overwriting earlier ones. */
  method ClassifyLeadSource(lead: LeadRecord) returns (info: SourceInfo)
    ensures info == LeadSourceOf(lead)
  {
    var fs := FieldsOf(lead);
    if fs == [] {
      info := InfoOf(map[]).(primary := SourceFromPipeline(lead.pipelineId));
      return;
    }
    var m := CollectFields(fs);
    info := InfoOf(m);
    info := info.(primary := DeterminePrimarySource(info));
    info := info.(detailed := DetailedSource(info));
  }

  // ---------------------------------------------------------------------------
  // Response time
  // ---------------------------------------------------------------------------

  /**
   * `calculate_response_time`: hours from the lead's creation to its first
   * event of entity type "lead". No such event gives `None`, and so does a
   * `created_at` that is present but null (the conversion raises).
   */
  function ResponseTime(lead: LeadRecord, events: seq<Event>): Option<real> {
    var mine := LeadEventsOf(events, lead.id);
    if lead.createdAt.Null? || mine == [] then None
    else
      var created := if lead.createdAt.Present? then lead.createdAt.value else 0;
      var first := SortByKey(mine, CreatedAt)[0];
      Some((first.createdAt - created) as real / 3600.0)
  }

  /** The first element of the sorted list is an element of the list with the least key. */
  lemma SortedFirstIsLeast(s: seq<Event>)
    requires s != []
    ensures SortByKey(s, CreatedAt)[0] in s
    ensures forall e :: e in s ==> SortByKey(s, CreatedAt)[0].createdAt <= e.createdAt
  {
    var sorted := SortByKey(s, CreatedAt);
    SortByKeyCorrect(s, CreatedAt);
    assert sorted[0] in multiset(sorted);
    forall e | e in s ensures sorted[0].createdAt <= e.createdAt {
      assert e in multiset(sorted);
      var k :| 0 <= k < |sorted| && sorted[k] == e;
      if k > 0 {
        assert CreatedAt(sorted[0]) <= CreatedAt(sorted[k]);
      }
    }
  }

  /**
   * The response time is measured to the earliest event of the lead, and is
   * negative (not clamped) when that event precedes the creation time.
   */
  lemma ResponseTimeIsEarliest(lead: LeadRecord, events: seq<Event>)
    ensures ResponseTime(lead, events).None? <==> lead.createdAt.Null? || LeadEventsOf(events, lead.id) == []
    ensures ResponseTime(lead, events).Some? ==>
              exists e :: e in LeadEventsOf(events, lead.id)
                && ResponseTime(lead, events).value * 3600.0
                   == (e.createdAt - (if lead.createdAt.Present? then lead.createdAt.value else 0)) as real
                && forall e' :: e' in LeadEventsOf(events, lead.id) ==> e.createdAt <= e'.createdAt
  {
    var mine := LeadEventsOf(events, lead.id);
    if ResponseTime(lead, events).Some? {
      SortedFirstIsLeast(mine);
      var e := SortByKey(mine, CreatedAt)[0];
      assert e in mine;
    }
  }

  // ---------------------------------------------------------------------------
  // Lead cost
  // ---------------------------------------------------------------------------

  predicate IsDigit(c: char) {
    '0' <= c <= '9'
  }

  /** Keeps only digits and dots. */
  function KeepNumeric(s: string): (r: string)
    ensures |r| <= |s|
    ensures forall i :: 0 <= i < |r| ==> IsDigit(r[i]) || r[i] == '.'
  {
    if s == [] then []
    else KeepNumeric(s[..|s| - 1]) + (if IsDigit(s[|s| - 1]) || s[|s| - 1] == '.' then [s[|s| - 1]] else [])
  }

  /** A string of digits and dots is kept whole. */
  lemma {:induction false} KeepNumericOfNumeric(s: string)
    requires forall i :: 0 <= i < |s| ==> IsDigit(s[i]) || s[i] == '.'
    ensures KeepNumeric(s) == s
  {
    if s != [] {
      KeepNumericOfNumeric(s[..|s| - 1]);
    }
  }

  /** Replaces every comma by a dot. */
  function CommaToDot(s: string): (r: string)
    ensures |r| == |s|
    ensures forall i :: 0 <= i < |s| ==> r[i] == (if s[i] == ',' then '.' else s[i])
  {
    if s == [] then [] else CommaToDot(s[..|s| - 1]) + [if s[|s| - 1] == ',' then '.' else s[|s| - 1]]
  }

  /** The cleaning of a cost value: strip, drop "R$", "$" and spaces, commas to dots, keep digits and dots. */
  function CleanCost(raw: string): string {
    KeepNumeric(CommaToDot(ReplaceAll(ReplaceAll(ReplaceAll(Strip(raw), "R$", ""), "$", ""), " ", "")))
  }

  /** The characters the cleaning keeps, commas counting as dots. */
  function Numeric(s: string): string {
    KeepNumeric(CommaToDot(s))
  }

  lemma CommaToDotAppend(a: string, b: string)
    ensures CommaToDot(a + b) == CommaToDot(a) + CommaToDot(b)
  {
    var l, r := CommaToDot(a + b), CommaToDot(a) + CommaToDot(b);
    assert |l| == |r|;
    forall i | 0 <= i < |l|
      ensures l[i] == r[i]
    {
      if i < |a| {
        assert (a + b)[i] == a[i];
      } else {
        assert (a + b)[i] == b[i - |a|];
      }
    }
  }

  lemma {:induction false} KeepNumericAppend(a: string, b: string)
    ensures KeepNumeric(a + b) == KeepNumeric(a) + KeepNumeric(b)
    decreases |b|
  {
    if b == [] {
      assert a + b == a;
    } else {
      var b' := b[..|b| - 1];
      KeepNumericAppend(a, b');
      assert (a + b)[..|a + b| - 1] == a + b';
      assert (a + b)[|a + b| - 1] == b[|b| - 1];
    }
  }

  lemma NumericAppend(a: string, b: string)
    ensures Numeric(a + b) == Numeric(a) + Numeric(b)
  {
    CommaToDotAppend(a, b);
    KeepNumericAppend(CommaToDot(a), CommaToDot(b));
  }

  /** A string without digits, dots or commas contributes nothing. */
  lemma {:induction false} NumericOfNoise(s: string)
    requires forall i :: 0 <= i < |s| ==> !IsDigit(s[i]) && s[i] != '.' && s[i] != ','
    ensures Numeric(s) == ""
  {
    if s != [] {
      NumericOfNoise(s[..|s| - 1]);
      assert CommaToDot(s) == CommaToDot(s[..|s| - 1]) + [s[|s| - 1]];
    }
  }

  /** Removing a pattern made of noise characters does not change what the cleaning keeps. */
  lemma {:induction false} NumericOfReplaceAll(s: string, pat: string)
    requires pat != []
    requires forall i :: 0 <= i < |pat| ==> !IsDigit(pat[i]) && pat[i] != '.' && pat[i] != ','
    ensures Numeric(ReplaceAll(s, pat, "")) == Numeric(s)
    decreases |s|
  {
    if s != [] {
      if StartsWith(s, pat) {
        NumericOfReplaceAll(s[|pat|..], pat);
        assert s == pat + s[|pat|..];
        NumericAppend(pat, s[|pat|..]);
        NumericOfNoise(pat);
        assert ReplaceAll(s, pat, "") == "" + ReplaceAll(s[|pat|..], pat, "");
        assert "" + ReplaceAll(s[|pat|..], pat, "") == ReplaceAll(s[|pat|..], pat, "");
      } else {
        NumericOfReplaceAll(s[1..], pat);
        assert s == [s[0]] + s[1..];
        NumericAppend([s[0]], s[1..]);
        NumericAppend([s[0]], ReplaceAll(s[1..], pat, ""));
      }
    }
  }

  /** Trimming leading whitespace does not change what the cleaning keeps. */
  lemma {:induction false} NumericOfTrimStart(s: string)
    ensures Numeric(TrimStart(s)) == Numeric(s)
    decreases |s|
  {
    if s != [] && IsSpace(s[0]) {
      var rest := s[1..];
      NumericOfTrimStart(rest);
      assert TrimStart(s) == TrimStart(rest);
      assert s == [s[0]] + rest;
      NumericAppend([s[0]], rest);
      NumericOfNoise([s[0]]);
    }
  }

  /** Trimming trailing whitespace does not change what the cleaning keeps. */
  lemma {:induction false} NumericOfTrimEnd(s: string)
    ensures Numeric(TrimEnd(s)) == Numeric(s)
    decreases |s|
  {
    if s != [] && IsSpace(s[|s| - 1]) {
      var init := s[..|s| - 1];
      NumericOfTrimEnd(init);
      assert TrimEnd(s) == TrimEnd(init);
      assert s == init + [s[|s| - 1]];
      NumericAppend(init, [s[|s| - 1]]);
      NumericOfNoise([s[|s| - 1]]);
      assert Numeric(s) == Numeric(init) + "";
    }
  }

  /**
   * Removing the currency symbols and spaces is subsumed by keeping only
   * digits and dots: the cleaned cost is exactly the digits and dots of the
   * raw text, commas read as dots.
   */
  lemma CleanCostIsNumeric(raw: string)
    ensures CleanCost(raw) == Numeric(raw)
  {
    var t := Strip(raw);
    NumericOfTrimStart(raw);
    NumericOfTrimEnd(TrimStart(raw));
    var a := ReplaceAll(t, "R$", "");
    NumericOfReplaceAll(t, "R$");
    var b := ReplaceAll(a, "$", "");
    NumericOfReplaceAll(a, "$");
    NumericOfReplaceAll(b, " ");
  }

  /**
   * A cost written with a thousands separator, "R$ 1.234,50", cleans (see
   * `CleanCostIsNumeric`) to "1.234.50", which has two dots and does not
   * parse: the field is skipped.
   */
  lemma ThousandsSeparatorNotParsed()
    ensures Numeric("R$ 1.234,50") == "1.234.50"
    ensures ParseDecimal("1.234.50").None?
  {
    ThousandsSeparatorCleaned();
    TwoDots("1.234.50", 1, 5);
  }

  /** The cleaning half of `ThousandsSeparatorNotParsed`. */
  lemma ThousandsSeparatorCleaned()
    ensures Numeric("R$ 1.234,50") == "1.234.50"
  {
    assert "R$ 1.234,50" == "R$ " + "1.234,50";
    NumericAppend("R$ ", "1.234,50");
    NumericOfNoise("R$ ");
    var c := CommaToDot("1.234,50");
    assert |c| == 8;
    assert c == "1.234.50" by {
      forall i | 0 <= i < 8 ensures c[i] == "1.234.50"[i] {
      }
    }
    KeepNumericOfNumeric("1.234.50");
  }

  /** The number of dots in `s`. */
  function Dots(s: string): nat {
    if s == [] then 0 else Dots(s[..|s| - 1]) + (if s[|s| - 1] == '.' then 1 else 0)
  }

  predicate HasDigit(s: string) {
    exists i :: 0 <= i < |s| && IsDigit(s[i])
  }

  /** The value of a string of digits. */
  function DigitsValue(s: string): nat
    requires forall i :: 0 <= i < |s| ==> IsDigit(s[i])
  {
    if s == [] then 0
    else
      assert IsDigit(s[|s| - 1]);
      10 * DigitsValue(s[..|s| - 1]) + (s[|s| - 1] as int - '0' as int)
  }

  function Pow10(n: nat): (r: nat)
    ensures r >= 1
  {
    if n == 0 then 1 else 10 * Pow10(n - 1)
  }

  /** The position of the first dot, or |s|. */
  function DotAt(s: string): (r: nat)
    ensures r <= |s|
    ensures forall i :: 0 <= i < r ==> s[i] != '.'
    ensures r < |s| ==> s[r] == '.'
  {
    if s == [] then 0 else if s[0] == '.' then 0 else 1 + DotAt(s[1..])
  }

  /**
   * `float(s)` for a string of digits and dots: a number needs at least one
   * digit and at most one dot; anything else raises `ValueError`.
   */
  function ParseDecimal(s: string): (r: Option<real>)
    requires forall i :: 0 <= i < |s| ==> IsDigit(s[i]) || s[i] == '.'
    ensures r.Some? <==> Dots(s) <= 1 && HasDigit(s)
    ensures r.Some? ==> r.value >= 0.0
  {
    if Dots(s) <= 1 && HasDigit(s) then
      var k := DotAt(s);
      var whole := s[..k];
      var frac := if k < |s| then s[k + 1..] else "";
      NoSecondDot(s, k);
      var fraction := DigitsValue(frac) as real / Pow10(|frac|) as real;
      assert fraction >= 0.0;
      Some(DigitsValue(whole) as real + fraction)
    else None
  }

  /** After the first dot of a string with at most one dot only digits remain. */
  lemma {:induction false} NoSecondDot(s: string, k: nat)
    requires forall i :: 0 <= i < |s| ==> IsDigit(s[i]) || s[i] == '.'
    requires Dots(s) <= 1 && k == DotAt(s)
    ensures forall i :: k < i < |s| ==> IsDigit(s[i])
  {
    forall i | k < i < |s| ensures IsDigit(s[i]) {
      if s[i] == '.' {
        TwoDots(s, k, i);
      }
    }
  }

  /** Two dots make `Dots` at least 2. */
  lemma {:induction false} TwoDots(s: string, a: nat, b: nat)
    requires a < b < |s| && s[a] == '.' && s[b] == '.'
    ensures Dots(s) >= 2
  {
    if b < |s| - 1 {
      TwoDots(s[..|s| - 1], a, b);
    } else {
      DotsAtLeastOne(s[..|s| - 1], a);
    }
  }

  lemma {:induction false} DotsAtLeastOne(s: string, a: nat)
    requires a < |s| && s[a] == '.'
    ensures Dots(s) >= 1
  {
    if a < |s| - 1 {
      DotsAtLeastOne(s[..|s| - 1], a);
    }
  }

  /** What the loop over the custom fields yields. */
  datatype CostScan = CostFound(cost: real) | CostRaised | NoCostField

  const CostWords: seq<string> := [
    "custo", "cost", "cac", "custo aquisição", "custo por lead",
    "investimento", "gasto", "despesa", "valor pago", "custo marketing"]

  /**
   * One field of the cost loop: a null `field_name`, a null `values` or an
   * empty `values` list raises; a cost-named field with a truthy value whose
   * cleaned text parses gives the cost; anything else goes on to the next field.
   */
  function CostStep(f: CustomField): Option<CostScan> {
    if f.fieldName.Null? || f.values.Null? || (f.values.Present? && f.values.value == []) then Some(CostRaised)
    else
      var name := if f.fieldName.Present? then Lower(f.fieldName.value) else "";
      var value := if f.values.Present? then f.values.value[0] else Absent;
      if ContainsAny(name, CostWords) && value.Present? && ValueTruthy(value.value) then
        var cleaned := CleanCost(Render(value.value));
        if cleaned != "" then
          var parsed := ParseDecimal(cleaned);
          if parsed.Some? then Some(CostFound(parsed.value)) else None
        else None
      else None
  }

  /** The first field that decides the loop, scanning from the front. */
  function ScanCost(fs: seq<CustomField>): CostScan {
    if fs == [] then NoCostField
    else if CostStep(fs[0]).Some? then CostStep(fs[0]).value
    else ScanCost(fs[1..])
  }

  /** The cost estimated from the primary source, 0 for a source not in the table. */
  function EstimatedCost(source: string): (r: real)
    ensures r >= 0.0
  {
    if source == "Google Ads" then 50.0
    else if source == "Meta Ads" then 35.0
    else if source == "Instagram" then 40.0
    else if source == "LinkedIn" then 80.0
    else if source == "Email Marketing" then 15.0
    else if source == "Outbound" then 25.0
    else if source == "YouTube" then 30.0
    else if source == "WhatsApp" then 10.0
    else 0.0
  }

  /** The cost `extract_lead_cost` returns. */
  function LeadCostOf(lead: LeadRecord): Option<real> {
    var fs := FieldsOf(lead);
    if fs == [] then None
    else
      match ScanCost(fs)
      case CostFound(c) => Some(c)
      case CostRaised => None
      case NoCostField => Some(EstimatedCost(LeadSourceOf(lead).primary))
  }

  /**
   * A lead without custom fields has no cost; a found cost is never negative;
   * without a cost field the estimate for its primary source is used.
   */
  lemma LeadCostShape(lead: LeadRecord)
    ensures FieldsOf(lead) == [] ==> LeadCostOf(lead).None?
    ensures LeadCostOf(lead).Some? ==> LeadCostOf(lead).value >= 0.0
    ensures FieldsOf(lead) != [] && ScanCost(FieldsOf(lead)).NoCostField?
            ==> LeadCostOf(lead) == Some(EstimatedCost(LeadSourceOf(lead).primary))
  {
    var fs := FieldsOf(lead);
    if fs != [] {
      ScanCostNonNegative(fs);
    }
  }

  lemma {:induction false} ScanCostNonNegative(fs: seq<CustomField>)
    ensures ScanCost(fs).CostFound? ==> ScanCost(fs).cost >= 0.0
  {
    if fs != [] && CostStep(fs[0]).None? {
      ScanCostNonNegative(fs[1..]);
    }
  }

  /** `extract_lead_cost`: the loop over the custom fields returns at the first cost it can parse. */
  method ExtractLeadCost(lead: LeadRecord) returns (cost: Option<real>)
    ensures cost == LeadCostOf(lead)
  {
    var fs := FieldsOf(lead);
    if fs == [] {
      return None;
    }
    var i := 0;
    while i < |fs|
      invariant 0 <= i <= |fs|
      invariant ScanCost(fs[i..]) == ScanCost(fs)
    {
      var step := CostStep(fs[i]);
      if step.Some? {
        assert ScanCost(fs[i..]) == step.value;
        match step.value
        case CostFound(c) => return Some(c);
        case CostRaised => return None;
        case NoCostField => { }
      }
      assert fs[i..][1..] == fs[i + 1..];
      i := i + 1;
    }
    var info := ClassifyLeadSource(lead);
    cost := Some(EstimatedCost(info.primary));
  }
}
