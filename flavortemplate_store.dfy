/**
 * The in-memory flavor-template table used in place of the database store: a list of
 * live templates and a list of deleted ones, with create, retrieve, search and delete.
 */
module FlavorTemplateStore {
  import opened Wrappers
  import opened Uuids

  datatype Pcr = Pcr(index: nat, bank: string)

  datatype EventLogEquals = EventLogEquals(excludingTags: seq<string>)

  datatype PcrRule = PcrRule(
    pcr: Pcr,
    pcrMatches: bool,
    eventlogEquals: Option<EventLogEquals>,
    eventlogIncludes: seq<string>)

  datatype FlavorPartMeta = FlavorPartMeta(tpmVersion: string, uefiEnabled: bool, vendor: string)

  datatype FlavorPart = FlavorPart(meta: FlavorPartMeta, pcrRules: seq<PcrRule>)

  /** The per-part sections of a template; an absent part is a nil pointer. */
  datatype FlavorParts = FlavorParts(
    platform: Option<FlavorPart>,
    os: Option<FlavorPart>,
    hostUnique: Option<FlavorPart>)

  datatype FlavorTemplate = FlavorTemplate(
    id: Uuid,
    templateLabel: string,
    condition: seq<string>,
    flavorParts: FlavorParts)

  /** A nil `Ids` slice and an empty one behave alike, so both are the empty sequence. */
  datatype FilterCriteria = FilterCriteria(
    ids: seq<Uuid>,
    templateLabel: string,
    conditionContains: string,
    flavorPartContains: string,
    includeDeleted: bool)

  datatype FlavorTemplateFlavorgroup = FlavorTemplateFlavorgroup(flavorTemplateId: Uuid, flavorgroupId: Uuid)

  datatype Error = StatusNotFoundError(message: string)

  const TemplateNotFound: string := "FlavorTemplate with given ID is not found"

  /** The template that `NewFakeFlavorTemplateStore` loads, with its JSON already decoded. */
  const DefaultUefiId: Uuid :=
    [0x42, 0x69, 0x12, 0xbd, 0x39, 0xb0, 0x4d, 0xaa, 0xad, 0x21, 0x0c, 0x69, 0x33, 0x23, 0x0b, 0x50]

  const LinuxTpm2Uefi: FlavorPartMeta := FlavorPartMeta("2.0", true, "Linux")

  const DefaultUefiTemplate: FlavorTemplate := FlavorTemplate(
    DefaultUefiId,
    "default-uefi",
    ["//host_info/vendor='Linux'", "//host_info/tpm_version='2.0'",
     "//host_info/uefi_enabled='true'", "//host_info/suefi_enabled='true'"],
    FlavorParts(
      Some(FlavorPart(LinuxTpm2Uefi, [PcrRule(Pcr(0, "SHA256"), true, Some(EventLogEquals([])), [])])),
      Some(FlavorPart(LinuxTpm2Uefi, [PcrRule(Pcr(7, "SHA256"), true, None, ["shim", "db", "kek", "vmlinuz"])])),
      None))

  /** The default template's id is the one its JSON document spells out. */
  lemma DefaultUefiIdText()
    ensures Format(DefaultUefiId) == "426912bd-39b0-4daa-ad21-0c6933230b50"
    ensures Parse("426912bd-39b0-4daa-ad21-0c6933230b50") == Some(DefaultUefiId)
  {
    DefaultUefiIdBytes();
    DefaultUefiIdPiece1();
    DefaultUefiIdPiece2();
    DefaultUefiIdPiece3();
    DefaultUefiIdPiece4();
    DefaultUefiIdPiece5();
    DefaultUefiIdPiece6();
    DefaultUefiIdPiece7();
    DefaultUefiIdJoin("4269", "12bd", "39b0", "4daa", "ad21", "0c6933", "230b50");
    TextOfGroups(DefaultUefiId, [0x42, 0x69], [0x12, 0xbd], [0x39, 0xb0], [0x4d, 0xaa],
      [0xad, 0x21], [0x0c, 0x69, 0x33], [0x23, 0x0b, 0x50],
      "4269", "12bd", "39b0", "4daa", "ad21", "0c6933", "230b50",
      "426912bd-39b0-4daa-ad21-0c6933230b50");
  }

  lemma DefaultUefiIdBytes()
    ensures DefaultUefiId == [0x42, 0x69] + [0x12, 0xbd] + [0x39, 0xb0] + [0x4d, 0xaa]
      + [0xad, 0x21] + ([0x0c, 0x69, 0x33] + [0x23, 0x0b, 0x50])
  {
  }

  lemma DefaultUefiIdPiece1() ensures HexBytes([0x42, 0x69]) == "4269" { }

  lemma DefaultUefiIdPiece2() ensures HexBytes([0x12, 0xbd]) == "12bd" { }

  lemma DefaultUefiIdPiece3() ensures HexBytes([0x39, 0xb0]) == "39b0" { }

  lemma DefaultUefiIdPiece4() ensures HexBytes([0x4d, 0xaa]) == "4daa" { }

  lemma DefaultUefiIdPiece5() ensures HexBytes([0xad, 0x21]) == "ad21" { }

  lemma DefaultUefiIdPiece6() ensures HexBytes([0x0c, 0x69, 0x33]) == "0c6933" { }

  lemma DefaultUefiIdPiece7() ensures HexBytes([0x23, 0x0b, 0x50]) == "230b50" { }

  lemma DefaultUefiIdJoin(p1: string, p2: string, p3: string, p4: string, p5: string, p6: string, p7: string)
    requires p1 == "4269" && p2 == "12bd" && p3 == "39b0" && p4 == "4daa"
    requires p5 == "ad21" && p6 == "0c6933" && p7 == "230b50"
    ensures p1 + p2 + "-" + p3 + "-" + p4 + "-" + p5 + "-" + (p6 + p7) == "426912bd-39b0-4daa-ad21-0c6933230b50"
  {
  }

  // ---------------------------------------------------------------------------
  // Specification functions

  /** Create's id rule: a Nil id is replaced by a freshly generated one, any other is kept. */
  function AssignId(ft: FlavorTemplate, random: Uuid): (r: FlavorTemplate)
    ensures r.id != Nil
    ensures ft.id != Nil ==> r == ft
    ensures r.templateLabel == ft.templateLabel && r.condition == ft.condition
    ensures r.flavorParts == ft.flavorParts
  {
    if ft.id == Nil then
      NewRandomNotNil(random);
      FlavorTemplate(NewRandom(random), ft.templateLabel, ft.condition, ft.flavorParts)
    else ft
  }

  /** The position of the first template with the given id, if any. */
  function FirstIndex(s: seq<FlavorTemplate>, id: Uuid): (r: Option<nat>)
    ensures r.Some? ==> r.value < |s| && s[r.value].id == id
    ensures r.Some? ==> forall k :: 0 <= k < r.value ==> s[k].id != id
    ensures r.None? ==> forall k :: 0 <= k < |s| ==> s[k].id != id
  {
    if s == [] then None
    else if s[0].id == id then Some(0)
    else match FirstIndex(s[1..], id)
      case Some(k) => Some(k + 1)
      case None => None
  }

  /** Overwrite slot `i` with the last element and drop the last slot. */
  function SwapRemove<T>(s: seq<T>, i: nat): (r: seq<T>)
    requires i < |s|
    ensures |r| == |s| - 1
    ensures multiset(r) + multiset{s[i]} == multiset(s)
    ensures i < |r| ==> r[i] == s[|s| - 1]
    ensures forall k :: 0 <= k < |r| && k != i ==> r[k] == s[k]
  {
    SwapRemoveMultiset(s, i);
    s[i := s[|s| - 1]][..|s| - 1]
  }

  lemma SwapRemoveMultiset<T>(s: seq<T>, i: nat)
    requires i < |s|
    ensures multiset(s[i := s[|s| - 1]][..|s| - 1]) + multiset{s[i]} == multiset(s)
  {
    var n := |s| - 1;
    var r := s[i := s[n]][..n];
    if i == n {
      assert r == s[..n];
      assert s == s[..n] + [s[n]];
    } else {
      var pre, mid := s[..i], s[i + 1..n];
      assert r == pre + [s[n]] + mid;
      assert s == pre + [s[i]] + mid + [s[n]];
    }
  }

  /** The rows a search scans: the live templates, then the deleted ones if asked for. */
  function SearchScope(live: seq<FlavorTemplate>, deleted: seq<FlavorTemplate>, c: FilterCriteria): seq<FlavorTemplate> {
    if c.includeDeleted then live + deleted else live
  }

  /** One copy when the id is among the criteria's ids (the scan stops at the first hit). */
  function IdCopies(t: FlavorTemplate, ids: seq<Uuid>): seq<FlavorTemplate> {
    if t.id in ids then [t] else []
  }

  function LabelCopies(t: FlavorTemplate, criteriaLabel: string): seq<FlavorTemplate> {
    if criteriaLabel != "" && t.templateLabel == criteriaLabel then [t] else []
  }

  /** One copy of `t` per condition in `conds` equal to `cc`, scanned left to right. */
  function ConditionCopies(conds: seq<string>, t: FlavorTemplate, cc: string): seq<FlavorTemplate> {
    if conds == [] then []
    else ConditionCopies(conds[..|conds| - 1], t, cc) + (if conds[|conds| - 1] == cc then [t] else [])
  }

  function PartCopies(t: FlavorTemplate, part: string): seq<FlavorTemplate> {
    if part == "" then []
    else
      (if t.flavorParts.platform.Some? && part == "PLATFORM" then [t] else [])
      + (if t.flavorParts.os.Some? && part == "OS" then [t] else [])
      + (if t.flavorParts.hostUnique.Some? && part == "HOST_UNIQUE" then [t] else [])
  }

  /** Everything the search appends for one scanned template, in the order it appends it. */
  function Copies(t: FlavorTemplate, c: FilterCriteria): seq<FlavorTemplate> {
    IdCopies(t, c.ids) + LabelCopies(t, c.templateLabel)
      + (if c.conditionContains != "" then ConditionCopies(t.condition, t, c.conditionContains) else [])
      + PartCopies(t, c.flavorPartContains)
  }

  /** `f` applied to each element of `s` in turn, the results concatenated. */
  function ConcatMap<T>(s: seq<T>, f: T -> seq<T>): seq<T> {
    if s == [] then [] else ConcatMap(s[..|s| - 1], f) + f(s[|s| - 1])
  }

  /** Everything the search appends while scanning `s`. */
  function Matches(s: seq<FlavorTemplate>, c: FilterCriteria): seq<FlavorTemplate> {
    ConcatMap(s, t => Copies(t, c))
  }

  // ---------------------------------------------------------------------------
  // Properties of the specification

  /** The condition scan appends exactly as many copies as there are equal conditions. */
  lemma {:induction false} ConditionCopiesCount(conds: seq<string>, t: FlavorTemplate, cc: string)
    ensures ConditionCopies(conds, t, cc) == seq(multiset(conds)[cc], _ => t)
  {
    if conds != [] {
      var n := |conds| - 1;
      ConditionCopiesCount(conds[..n], t, cc);
      assert conds == conds[..n] + [conds[n]];
      assert multiset(conds) == multiset(conds[..n]) + multiset{conds[n]};
    }
  }

  /** The flavor-part test appends at most one copy, since the criterion names one part. */
  lemma PartCopiesAtMostOne(t: FlavorTemplate, part: string)
    ensures |PartCopies(t, part)| <= 1
    ensures |PartCopies(t, part)| == 1 <==>
      (part == "PLATFORM" && t.flavorParts.platform.Some?) ||
      (part == "OS" && t.flavorParts.os.Some?) ||
      (part == "HOST_UNIQUE" && t.flavorParts.hostUnique.Some?)
  {
  }

  /**
   * What one scanned template contributes: only copies of itself, one for an id hit, one for
   * a label hit, one per condition equal to the criterion, and at most one for a part.
   */
  lemma CopiesCount(t: FlavorTemplate, c: FilterCriteria)
    ensures forall x :: x in Copies(t, c) ==> x == t
    ensures |Copies(t, c)| ==
      (if t.id in c.ids then 1 else 0)
      + (if c.templateLabel != "" && t.templateLabel == c.templateLabel then 1 else 0)
      + (if c.conditionContains != "" then multiset(t.condition)[c.conditionContains] else 0)
      + |PartCopies(t, c.flavorPartContains)|
  {
    var ids, labels, parts := IdCopies(t, c.ids), LabelCopies(t, c.templateLabel), PartCopies(t, c.flavorPartContains);
    var conditions := if c.conditionContains != "" then ConditionCopies(t.condition, t, c.conditionContains) else [];
    assert Copies(t, c) == ids + labels + conditions + parts;
    ConditionCopiesCount(t.condition, t, c.conditionContains);
    assert forall x :: x in conditions ==> x == t;
    assert |conditions| == if c.conditionContains != "" then multiset(t.condition)[c.conditionContains] else 0;
    PartCopiesAtMostOne(t, c.flavorPartContains);
    assert forall x :: x in parts ==> x == t;
  }

  lemma ConcatMapSnoc<T>(s: seq<T>, i: nat, f: T -> seq<T>)
    requires i < |s|
    ensures ConcatMap(s[..i + 1], f) == ConcatMap(s[..i], f) + f(s[i])
  {
    assert s[..i + 1][..i] == s[..i];
  }

  lemma {:induction false} ConcatMapAppend<T>(a: seq<T>, b: seq<T>, f: T -> seq<T>)
    ensures ConcatMap(a + b, f) == ConcatMap(a, f) + ConcatMap(b, f)
  {
    if b == [] {
      assert a + b == a;
    } else {
      var n, ab := |b| - 1, a + b;
      assert ab[..|ab| - 1] == a + b[..n];
      assert ab[|ab| - 1] == b[n];
      ConcatMapAppend(a, b[..n], f);
    }
  }

  lemma {:induction false} ConcatMapFrom<T>(s: seq<T>, f: T -> seq<T>)
    requires forall t :: forall x :: x in f(t) ==> x == t
    ensures forall x :: x in ConcatMap(s, f) ==> x in s
  {
    if s != [] {
      var n := |s| - 1;
      ConcatMapFrom(s[..n], f);
      assert s == s[..n] + [s[n]];
    }
  }

  /** Scanning one more template appends that template's copies. */
  lemma MatchesSnoc(s: seq<FlavorTemplate>, i: nat, c: FilterCriteria)
    requires i < |s|
    ensures Matches(s[..i + 1], c) == Matches(s[..i], c) + Copies(s[i], c)
  {
    ConcatMapSnoc(s, i, t => Copies(t, c));
  }

  /** Concatenation is associative. */
  lemma AppendAssoc<T>(a: seq<T>, b: seq<T>, c: seq<T>)
    ensures (a + b) + c == a + (b + c)
  {
  }

  /** Scanning two lists one after the other appends what scanning each appends. */
  lemma MatchesAppend(a: seq<FlavorTemplate>, b: seq<FlavorTemplate>, c: FilterCriteria)
    ensures Matches(a + b, c) == Matches(a, c) + Matches(b, c)
  {
    ConcatMapAppend(a, b, t => Copies(t, c));
  }

  /** The search only ever appends templates it scanned. */
  lemma MatchesFromScope(s: seq<FlavorTemplate>, c: FilterCriteria)
    ensures forall x :: x in Matches(s, c) ==> x in s
  {
    forall t: FlavorTemplate, x | x in Copies(t, c) ensures x == t {
      CopiesCount(t, c);
    }
    ConcatMapFrom(s, t => Copies(t, c));
  }

  /** Ids are pairwise distinct. */
  ghost predicate UniqueIds(s: seq<FlavorTemplate>) {
    forall i, j :: 0 <= i < j < |s| ==> s[i].id != s[j].id
  }

  /** With distinct ids, the swap-remove done by Delete leaves no template with that id. */
  lemma DeleteRemovesId(s: seq<FlavorTemplate>, id: Uuid)
    requires UniqueIds(s)
    requires FirstIndex(s, id).Some?
    ensures FirstIndex(SwapRemove(s, FirstIndex(s, id).value), id).None?
    ensures UniqueIds(SwapRemove(s, FirstIndex(s, id).value))
  {
    var i := FirstIndex(s, id).value;
    var r := SwapRemove(s, i);
    forall k | 0 <= k < |r| ensures r[k].id != id {
      if k == i {
        assert r[k] == s[|s| - 1];
      }
    }
    forall a, b | 0 <= a < b < |r| ensures r[a].id != r[b].id {
      var a', b' := if a == i then |s| - 1 else a, if b == i then |s| - 1 else b;
      assert r[a] == s[a'] && r[b] == s[b'] && a' != b';
    }
  }

  // ---------------------------------------------------------------------------
  // The body of the search loop, one criterion at a time

  /** The id criterion: scan the ids and append one copy at the first equal one. */
  method AppendIdMatch(rec: seq<FlavorTemplate>, template: FlavorTemplate, ids: seq<Uuid>)
    returns (out: seq<FlavorTemplate>)
    ensures out == rec + IdCopies(template, ids)
  {
    out := rec;
    var j := 0;
    while j < |ids|
      invariant 0 <= j <= |ids|
      invariant template.id !in ids[..j]
      invariant out == rec
    {
      if template.id == ids[j] {
        out := out + [template];
        break;
      }
      j := j + 1;
    }
    if j == |ids| {
      assert ids[..j] == ids;
    }
  }

  /** The condition criterion: one copy per condition of the template equal to `cc`. */
  method AppendConditionMatches(rec: seq<FlavorTemplate>, template: FlavorTemplate, cc: string)
    returns (out: seq<FlavorTemplate>)
    ensures out == rec + ConditionCopies(template.condition, template, cc)
  {
    out := rec;
    var k := 0;
    while k < |template.condition|
      invariant 0 <= k <= |template.condition|
      invariant out == rec + ConditionCopies(template.condition[..k], template, cc)
    {
      assert template.condition[..k + 1][..k] == template.condition[..k];
      if template.condition[k] == cc {
        out := out + [template];
      }
      k := k + 1;
    }
    assert template.condition[..k] == template.condition;
  }

  /** The flavor-part criterion: one copy when the named part is present in the template. */
  method AppendPartMatch(rec: seq<FlavorTemplate>, template: FlavorTemplate, part: string)
    returns (out: seq<FlavorTemplate>)
    ensures out == rec + PartCopies(template, part)
  {
    out := rec;
    if part != "" {
      var platform, os, hostUnique := part == "PLATFORM", part == "OS", part == "HOST_UNIQUE";
      if template.flavorParts.platform.Some? && platform {
        out := out + [template];
      }
      if template.flavorParts.os.Some? && os {
        out := out + [template];
      }
      if template.flavorParts.hostUnique.Some? && hostUnique {
        out := out + [template];
      }
    }
  }

  /** One pass of the search loop: the id, label, condition and flavor-part criteria in turn. */
  method AppendCopies(rec: seq<FlavorTemplate>, template: FlavorTemplate, criteria: FilterCriteria)
    returns (out: seq<FlavorTemplate>)
    ensures out == rec + Copies(template, criteria)
  {
    var ids := AppendIdMatch([], template, criteria.ids);
    var labels := [];
    if criteria.templateLabel != "" {
      if template.templateLabel == criteria.templateLabel {
        labels := [template];
      }
    }
    var conditions := [];
    if criteria.conditionContains != "" {
      conditions := AppendConditionMatches([], template, criteria.conditionContains);
    }
    var parts := AppendPartMatch([], template, criteria.flavorPartContains);
    out := rec + ids + labels + conditions + parts;
  }

  // ---------------------------------------------------------------------------
  // The store

  class MockFlavorTemplateStore {
    var flavorTemplates: seq<FlavorTemplate>
    var deletedTemplates: seq<FlavorTemplate>

    constructor ()
      ensures flavorTemplates == [] && deletedTemplates == []
    {
      flavorTemplates := [];
      deletedTemplates := [];
    }

    /** `NewFakeFlavorTemplateStore`: an empty store into which the default template is created. */
    constructor NewFake(random: Uuid)
      ensures flavorTemplates == [DefaultUefiTemplate] && deletedTemplates == []
    {
      flavorTemplates := [];
      deletedTemplates := [];
      new;
      assert DefaultUefiId[0] != Nil[0];
      var _, _ := Create(DefaultUefiTemplate, random);
    }

    /** Appends the template, after giving it a fresh id if its id is Nil. */
    method Create(ft: FlavorTemplate, random: Uuid) returns (created: FlavorTemplate, err: Option<Error>)
      modifies this
      ensures created == AssignId(ft, random) && err == None
      ensures flavorTemplates == old(flavorTemplates) + [created]
      ensures deletedTemplates == old(deletedTemplates)
    {
      created := ft;
      if created.id == Nil {
        created := created.(id := NewRandom(random));
      }
      flavorTemplates := flavorTemplates + [created];
      err := None;
    }

    /** The first live template with the given id; deleted templates are never searched. */
    method Retrieve(templateId: Uuid, includeDeleted: bool) returns (r: Result<FlavorTemplate, Error>)
      ensures FirstIndex(flavorTemplates, templateId).Some? ==>
        r == Ok(flavorTemplates[FirstIndex(flavorTemplates, templateId).value])
      ensures FirstIndex(flavorTemplates, templateId).None? ==>
        r == Err(StatusNotFoundError(TemplateNotFound))
    {
      var i := 0;
      while i < |flavorTemplates|
        invariant 0 <= i <= |flavorTemplates|
        invariant forall k :: 0 <= k < i ==> flavorTemplates[k].id != templateId
      {
        if flavorTemplates[i].id == templateId {
          return Ok(flavorTemplates[i]);
        }
        i := i + 1;
      }
      return Err(StatusNotFoundError(TemplateNotFound));
    }

    /**
     * Starts from every scanned template and appends, per scanned template, one copy for
     * an id hit, one for a label hit, one per equal condition and one for a named part that
     * is present; nothing is ever filtered out.
     */
    method Search(criteria: FilterCriteria) returns (rec: seq<FlavorTemplate>, err: Option<Error>)
      ensures rec == SearchScope(flavorTemplates, deletedTemplates, criteria)
        + Matches(SearchScope(flavorTemplates, deletedTemplates, criteria), criteria)
      ensures err == None
    {
      var scanned := flavorTemplates;
      if criteria.includeDeleted {
        scanned := scanned + deletedTemplates;
      }
      rec := scanned;
      var i := 0;
      while i < |scanned|
        invariant 0 <= i <= |scanned|
        invariant rec == scanned + Matches(scanned[..i], criteria)
      {
        rec := AppendCopies(rec, scanned[i], criteria);
        MatchesSnoc(scanned, i, criteria);
        AppendAssoc(scanned, Matches(scanned[..i], criteria), Copies(scanned[i], criteria));
        i := i + 1;
      }
      assert scanned[..i] == scanned;
      err := None;
    }

    /**
     * Moves the first template with the given id to the deleted list and fills its slot
     * with the last live template; an unknown id changes nothing.
     */
    method Delete(templateId: Uuid) returns (err: Option<Error>)
      modifies this
      ensures FirstIndex(old(flavorTemplates), templateId).Some? ==>
        var i := FirstIndex(old(flavorTemplates), templateId).value;
        && err == None
        && deletedTemplates == old(deletedTemplates) + [old(flavorTemplates)[i]]
        && flavorTemplates == SwapRemove(old(flavorTemplates), i)
      ensures FirstIndex(old(flavorTemplates), templateId).None? ==>
        && err == Some(StatusNotFoundError(TemplateNotFound))
        && flavorTemplates == old(flavorTemplates)
        && deletedTemplates == old(deletedTemplates)
    {
      var i := 0;
      while i < |flavorTemplates|
        invariant 0 <= i <= |flavorTemplates|
        invariant flavorTemplates == old(flavorTemplates) && deletedTemplates == old(deletedTemplates)
        invariant forall k :: 0 <= k < i ==> flavorTemplates[k].id != templateId
      {
        if flavorTemplates[i].id == templateId {
          deletedTemplates := deletedTemplates + [flavorTemplates[i]];
          flavorTemplates := flavorTemplates[i := flavorTemplates[|flavorTemplates| - 1]];
          flavorTemplates := flavorTemplates[..|flavorTemplates| - 1];
          return None;
        }
        i := i + 1;
      }
      return Some(StatusNotFoundError(TemplateNotFound));
    }

    /** Recovering deleted templates is not implemented by the mock and always succeeds. */
    method Recover(labels: seq<string>) returns (err: Option<Error>)
      ensures err == None
    {
      err := None;
    }

    method AddFlavorgroups(templateId: Uuid, flavorgroupIds: seq<Uuid>) returns (err: Option<Error>)
      ensures err == None
    {
      err := None;
    }

    method RetrieveFlavorgroup(templateId: Uuid, flavorgroupId: Uuid)
      returns (link: Option<FlavorTemplateFlavorgroup>, err: Option<Error>)
      ensures link == None && err == None
    {
      link, err := None, None;
    }

    method RemoveFlavorgroups(templateId: Uuid, flavorgroupIds: seq<Uuid>) returns (err: Option<Error>)
      ensures err == None
    {
      err := None;
    }

    method SearchFlavorgroups(templateId: Uuid) returns (ids: Option<seq<Uuid>>, err: Option<Error>)
      ensures ids == None && err == None
    {
      ids, err := None, None;
    }
  }
}
