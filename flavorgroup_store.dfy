/**
 * The in-memory flavor-group table used in place of the database store. Delete leaves a
 * nil slot behind instead of shrinking the table, so the table is a sequence of optional
 * groups (Go's `[]*hvs.FlavorGroup`).
 */
module FlavorgroupStore {
  import opened Wrappers
  import opened Strings
  import opened Uuids

  datatype FlavorPartName = Platform | Os | HostUnique | Software | AssetTag

  datatype MatchType = AnyOf | AllOf

  datatype RequiredPolicy = Required | RequiredIfDefined | NotRequired

  datatype MatchPolicy = MatchPolicy(matchType: MatchType, required: RequiredPolicy)

  datatype FlavorMatchPolicy = FlavorMatchPolicy(flavorPart: FlavorPartName, matchPolicy: MatchPolicy)

  datatype FlavorMatchPolicyCollection = FlavorMatchPolicyCollection(flavorMatchPolicies: seq<FlavorMatchPolicy>)

  datatype FlavorGroup = FlavorGroup(
    id: Uuid,
    name: string,
    flavorMatchPolicyCollection: Option<FlavorMatchPolicyCollection>)

  /** The three criteria the mock looks at; an empty string means "not given". */
  datatype FlavorGroupFilterCriteria = FlavorGroupFilterCriteria(id: string, nameEqualTo: string, nameContains: string)

  /** A call either returns or panics (a failed `uuid.MustParse`, a nil dereference). */
  datatype Outcome<T> = Returns(value: T) | Panics(reason: string)

  /** A `*hvs.FlavorGroup`: nil or a group. */
  type Slot = Option<FlavorGroup>

  /** A `*hvs.FlavorgroupCollection`: nil or a collection holding slots. */
  type Collection = Option<seq<Slot>>

  const RecordNotFound: string := "record not found"

  const InvalidUuid: string := "uuid: Parse: invalid UUID"

  const NilDereference: string := "invalid memory address or nil pointer dereference"

  // ---------------------------------------------------------------------------
  // The seeded contents of `NewFakeFlavorgroupStore`

  const Test1Id: Uuid := [0xee, 0x37, 0xc3, 0x60, 0x7e, 0xae, 0x42, 0x50, 0xa6, 0x77, 0x6e, 0xe1, 0x2a, 0xdc, 0xe8, 0xe2]

  const Test2Id: Uuid := [0xe5, 0x7e, 0x5e, 0xa0, 0xd4, 0x65, 0x46, 0x1e, 0x88, 0x2d, 0x16, 0x00, 0x09, 0x0c, 0xaa, 0x0d]

  const Test1: FlavorGroup := FlavorGroup(Test1Id, "hvs_flavorgroup_test1",
    Some(FlavorMatchPolicyCollection([
      FlavorMatchPolicy(Os, MatchPolicy(AllOf, Required)),
      FlavorMatchPolicy(Platform, MatchPolicy(AnyOf, RequiredIfDefined))])))

  const Test2: FlavorGroup := FlavorGroup(Test2Id, "hvs_flavorgroup_test2",
    Some(FlavorMatchPolicyCollection([FlavorMatchPolicy(HostUnique, MatchPolicy(AllOf, Required))])))

  const Seeded: seq<Slot> := [Some(Test1), Some(Test2)]

  /** The match policy a group sets for a flavor part: the first one listed for it, if any. */
  function PolicyFor(g: FlavorGroup, part: FlavorPartName): (r: Option<MatchPolicy>)
    ensures r.Some? ==> g.flavorMatchPolicyCollection.Some?
    ensures r.Some? ==> FlavorMatchPolicy(part, r.value) in g.flavorMatchPolicyCollection.value.flavorMatchPolicies
    ensures r.None? && g.flavorMatchPolicyCollection.Some? ==>
      forall p :: p in g.flavorMatchPolicyCollection.value.flavorMatchPolicies ==> p.flavorPart != part
  {
    match g.flavorMatchPolicyCollection
    case None => None
    case Some(c) => FirstPolicy(c.flavorMatchPolicies, part)
  }

  function FirstPolicy(ps: seq<FlavorMatchPolicy>, part: FlavorPartName): (r: Option<MatchPolicy>)
    ensures r.Some? ==> FlavorMatchPolicy(part, r.value) in ps
    ensures r.None? ==> forall p :: p in ps ==> p.flavorPart != part
  {
    if ps == [] then None
    else if ps[0].flavorPart == part then Some(ps[0].matchPolicy)
    else FirstPolicy(ps[1..], part)
  }

  /** The seeded groups carry the policies the trust-manager tests rely on, and no others. */
  lemma SeededPolicies()
    ensures PolicyFor(Test1, Os) == Some(MatchPolicy(AllOf, Required))
    ensures PolicyFor(Test1, Platform) == Some(MatchPolicy(AnyOf, RequiredIfDefined))
    ensures PolicyFor(Test1, HostUnique) == None && PolicyFor(Test1, Software) == None
    ensures PolicyFor(Test1, AssetTag) == None
    ensures PolicyFor(Test2, HostUnique) == Some(MatchPolicy(AllOf, Required))
    ensures PolicyFor(Test2, Platform) == None && PolicyFor(Test2, Os) == None
    ensures PolicyFor(Test2, Software) == None && PolicyFor(Test2, AssetTag) == None
  {
  }

  /** The seeded ids are the ones the source spells out. */
  lemma SeededIdText()
    ensures Parse("ee37c360-7eae-4250-a677-6ee12adce8e2") == Some(Test1Id)
    ensures Parse("e57e5ea0-d465-461e-882d-1600090caa0d") == Some(Test2Id)
    ensures Format(Test1Id) == "ee37c360-7eae-4250-a677-6ee12adce8e2"
    ensures Format(Test2Id) == "e57e5ea0-d465-461e-882d-1600090caa0d"
  {
    Test1IdText();
    Test2IdText();
  }

  /** The first seeded id is the one the source spells out. */
  lemma Test1IdText()
    ensures Format(Test1Id) == "ee37c360-7eae-4250-a677-6ee12adce8e2"
    ensures Parse("ee37c360-7eae-4250-a677-6ee12adce8e2") == Some(Test1Id)
  {
    Test1IdBytes();
    Test1IdPiece1();
    Test1IdPiece2();
    Test1IdPiece3();
    Test1IdPiece4();
    Test1IdPiece5();
    Test1IdPiece6();
    Test1IdPiece7();
    Test1IdJoin("ee37", "c360", "7eae", "4250", "a677", "6ee12a", "dce8e2");
    TextOfGroups(Test1Id, [0xee, 0x37], [0xc3, 0x60], [0x7e, 0xae], [0x42, 0x50],
      [0xa6, 0x77], [0x6e, 0xe1, 0x2a], [0xdc, 0xe8, 0xe2],
      "ee37", "c360", "7eae", "4250", "a677", "6ee12a", "dce8e2",
      "ee37c360-7eae-4250-a677-6ee12adce8e2");
  }

  lemma Test1IdBytes()
    ensures Test1Id == [0xee, 0x37] + [0xc3, 0x60] + [0x7e, 0xae] + [0x42, 0x50]
      + [0xa6, 0x77] + ([0x6e, 0xe1, 0x2a] + [0xdc, 0xe8, 0xe2])
  {
  }

  lemma Test1IdPiece1() ensures HexBytes([0xee, 0x37]) == "ee37" { }

  lemma Test1IdPiece2() ensures HexBytes([0xc3, 0x60]) == "c360" { }

  lemma Test1IdPiece3() ensures HexBytes([0x7e, 0xae]) == "7eae" { }

  lemma Test1IdPiece4() ensures HexBytes([0x42, 0x50]) == "4250" { }

  lemma Test1IdPiece5() ensures HexBytes([0xa6, 0x77]) == "a677" { }

  lemma Test1IdPiece6() ensures HexBytes([0x6e, 0xe1, 0x2a]) == "6ee12a" { }

  lemma Test1IdPiece7() ensures HexBytes([0xdc, 0xe8, 0xe2]) == "dce8e2" { }

  lemma Test1IdJoin(p1: string, p2: string, p3: string, p4: string, p5: string, p6: string, p7: string)
    requires p1 == "ee37" && p2 == "c360" && p3 == "7eae" && p4 == "4250"
    requires p5 == "a677" && p6 == "6ee12a" && p7 == "dce8e2"
    ensures p1 + p2 + "-" + p3 + "-" + p4 + "-" + p5 + "-" + (p6 + p7) == "ee37c360-7eae-4250-a677-6ee12adce8e2"
  {
  }

  /** The second seeded id is the one the source spells out. */
  lemma Test2IdText()
    ensures Format(Test2Id) == "e57e5ea0-d465-461e-882d-1600090caa0d"
    ensures Parse("e57e5ea0-d465-461e-882d-1600090caa0d") == Some(Test2Id)
  {
    Test2IdBytes();
    Test2IdPiece1();
    Test2IdPiece2();
    Test2IdPiece3();
    Test2IdPiece4();
    Test2IdPiece5();
    Test2IdPiece6();
    Test2IdPiece7();
    Test2IdJoin("e57e", "5ea0", "d465", "461e", "882d", "160009", "0caa0d");
    TextOfGroups(Test2Id, [0xe5, 0x7e], [0x5e, 0xa0], [0xd4, 0x65], [0x46, 0x1e],
      [0x88, 0x2d], [0x16, 0x00, 0x09], [0x0c, 0xaa, 0x0d],
      "e57e", "5ea0", "d465", "461e", "882d", "160009", "0caa0d",
      "e57e5ea0-d465-461e-882d-1600090caa0d");
  }

  lemma Test2IdBytes()
    ensures Test2Id == [0xe5, 0x7e] + [0x5e, 0xa0] + [0xd4, 0x65] + [0x46, 0x1e]
      + [0x88, 0x2d] + ([0x16, 0x00, 0x09] + [0x0c, 0xaa, 0x0d])
  {
  }

  lemma Test2IdPiece1() ensures HexBytes([0xe5, 0x7e]) == "e57e" { }

  lemma Test2IdPiece2() ensures HexBytes([0x5e, 0xa0]) == "5ea0" { }

  lemma Test2IdPiece3() ensures HexBytes([0xd4, 0x65]) == "d465" { }

  lemma Test2IdPiece4() ensures HexBytes([0x46, 0x1e]) == "461e" { }

  lemma Test2IdPiece5() ensures HexBytes([0x88, 0x2d]) == "882d" { }

  lemma Test2IdPiece6() ensures HexBytes([0x16, 0x00, 0x09]) == "160009" { }

  lemma Test2IdPiece7() ensures HexBytes([0x0c, 0xaa, 0x0d]) == "0caa0d" { }

  lemma Test2IdJoin(p1: string, p2: string, p3: string, p4: string, p5: string, p6: string, p7: string)
    requires p1 == "e57e" && p2 == "5ea0" && p3 == "d465" && p4 == "461e"
    requires p5 == "882d" && p6 == "160009" && p7 == "0caa0d"
    ensures p1 + p2 + "-" + p3 + "-" + p4 + "-" + p5 + "-" + (p6 + p7) == "e57e5ea0-d465-461e-882d-1600090caa0d"
  {
  }

  // ---------------------------------------------------------------------------
  // Specification functions (nil slots are passed over)

  predicate HoldsId(slot: Slot, id: Uuid) {
    slot.Some? && slot.value.id == id
  }

  predicate HoldsName(slot: Slot, name: string) {
    slot.Some? && slot.value.name == name
  }

  predicate NameContains(slot: Slot, sub: string) {
    slot.Some? && Contains(slot.value.name, sub)
  }

  /** The first slot holding a group with the given id. */
  function FirstById(s: seq<Slot>, id: Uuid): (r: Option<nat>)
    ensures r.Some? ==> r.value < |s| && HoldsId(s[r.value], id)
    ensures r.Some? ==> forall k :: 0 <= k < r.value ==> !HoldsId(s[k], id)
    ensures r.None? ==> forall k :: 0 <= k < |s| ==> !HoldsId(s[k], id)
  {
    if s == [] then None
    else if HoldsId(s[0], id) then Some(0)
    else match FirstById(s[1..], id)
      case Some(k) => Some(k + 1)
      case None => None
  }

  /** The first slot holding a group with the given name. */
  function FirstByName(s: seq<Slot>, name: string): (r: Option<nat>)
    ensures r.Some? ==> r.value < |s| && HoldsName(s[r.value], name)
    ensures r.Some? ==> forall k :: 0 <= k < r.value ==> !HoldsName(s[k], name)
    ensures r.None? ==> forall k :: 0 <= k < |s| ==> !HoldsName(s[k], name)
  {
    if s == [] then None
    else if HoldsName(s[0], name) then Some(0)
    else match FirstByName(s[1..], name)
      case Some(k) => Some(k + 1)
      case None => None
  }

  /** `Retrieve`: the first group with the id, else "record not found". */
  function RetrieveSpec(s: seq<Slot>, id: Uuid): (r: Result<FlavorGroup, string>)
    ensures r.Ok? <==> exists k :: 0 <= k < |s| && HoldsId(s[k], id)
    ensures r.Ok? ==> r.value.id == id && Some(r.value) in s
    ensures r.Err? ==> r.error == RecordNotFound
  {
    match FirstById(s, id)
    case Some(i) => Ok(s[i].value)
    case None => Err(RecordNotFound)
  }

  /** The slots whose group's name contains `sub`, in table order. */
  function NameContainsMatches(s: seq<Slot>, sub: string): seq<Slot> {
    if s == [] then []
    else NameContainsMatches(s[..|s| - 1], sub) + (if NameContains(s[|s| - 1], sub) then [s[|s| - 1]] else [])
  }

  /**
   * `Search`: nil criteria give the whole table; otherwise the first criterion given
   * decides, in the order id, exact name, name substring; no criterion gives nil.
   */
  function SearchSpec(s: seq<Slot>, criteria: Option<FlavorGroupFilterCriteria>): (r: Outcome<Collection>)
    ensures r.Returns? && r.value.Some? ==> forall x :: x in r.value.value ==> x.None? || x in s
    ensures r.Returns? && r.value.None? ==> criteria.Some?
  {
    if criteria.None? then Returns(Some(s))
    else
      var c := criteria.value;
      if c.id != "" then
        match Parse(c.id)
        case None => Panics(InvalidUuid)
        case Some(u) => Returns(Some([match RetrieveSpec(s, u) case Ok(g) => Some(g) case Err(_) => None]))
      else if c.nameEqualTo != "" then
        match FirstByName(s, c.nameEqualTo)
        case Some(i) => Returns(Some([s[i]]))
        case None => Returns(None)
      else if c.nameContains != "" then
        NameContainsMembers(s, c.nameContains);
        Returns(Some(NameContainsMatches(s, c.nameContains)))
      else Returns(None)
  }

  // ---------------------------------------------------------------------------
  // Properties of the specification

  ghost predicate UniqueIds(s: seq<Slot>) {
    forall i, j :: 0 <= i < j < |s| && s[i].Some? && s[j].Some? ==> s[i].value.id != s[j].value.id
  }

  /** The name-substring search keeps exactly the groups whose name contains the substring. */
  lemma {:induction false} NameContainsMembers(s: seq<Slot>, sub: string)
    ensures forall x :: x in NameContainsMatches(s, sub) <==> x in s && NameContains(x, sub)
  {
    if s != [] {
      var n := |s| - 1;
      NameContainsMembers(s[..n], sub);
      assert s == s[..n] + [s[n]];
    }
  }

  /** The name-substring search keeps table order: searching two tables in turn is searching their join. */
  lemma {:induction false} NameContainsAppend(a: seq<Slot>, b: seq<Slot>, sub: string)
    ensures NameContainsMatches(a + b, sub) == NameContainsMatches(a, sub) + NameContainsMatches(b, sub)
  {
    if b == [] {
      assert a + b == a;
    } else {
      var n, ab := |b| - 1, a + b;
      assert ab[..|ab| - 1] == a + b[..n];
      assert ab[|ab| - 1] == b[n];
      NameContainsAppend(a, b[..n], sub);
    }
  }

  /** Only an id that is not a UUID makes the search panic. */
  lemma SearchPanicsIff(s: seq<Slot>, criteria: Option<FlavorGroupFilterCriteria>)
    ensures SearchSpec(s, criteria).Panics? <==>
      criteria.Some? && criteria.value.id != "" && Parse(criteria.value.id).None?
  {
  }

  /** Searching by the text form of an id finds the first group with that id. */
  lemma SearchByIdText(s: seq<Slot>, k: nat)
    requires k < |s| && s[k].Some?
    ensures var fg := s[FirstById(s, s[k].value.id).value];
      SearchSpec(s, Some(FlavorGroupFilterCriteria(Format(s[k].value.id), "", ""))) == Returns(Some([fg]))
  {
    FormatThenParse(s[k].value.id);
    assert HoldsId(s[k], s[k].value.id);
  }

  /** An id search always returns one slot, nil exactly when no group has that id. */
  lemma SearchByIdSingleton(s: seq<Slot>, c: FlavorGroupFilterCriteria)
    requires c.id != "" && Parse(c.id).Some?
    ensures SearchSpec(s, Some(c)).Returns? && SearchSpec(s, Some(c)).value.Some?
    ensures var r := SearchSpec(s, Some(c)).value.value;
      |r| == 1 && (r[0].None? <==> forall k :: 0 <= k < |s| ==> !HoldsId(s[k], Parse(c.id).value))
  {
  }

  /** An exact-name search gives nil when no group has the name, else the first such group alone. */
  lemma SearchByName(s: seq<Slot>, c: FlavorGroupFilterCriteria)
    requires c.id == "" && c.nameEqualTo != ""
    ensures SearchSpec(s, Some(c)).Returns?
    ensures SearchSpec(s, Some(c)).value.None? <==> forall k :: 0 <= k < |s| ==> !HoldsName(s[k], c.nameEqualTo)
    ensures SearchSpec(s, Some(c)).value.Some? ==>
      exists k :: 0 <= k < |s| && HoldsName(s[k], c.nameEqualTo) && SearchSpec(s, Some(c)).value.value == [s[k]]
        && forall j :: 0 <= j < k ==> !HoldsName(s[j], c.nameEqualTo)
  {
    match FirstByName(s, c.nameEqualTo)
    case Some(i) =>
      assert HoldsName(s[i], c.nameEqualTo);
    case None =>
  }

  /** Writing nil into the id's slot makes the id unknown, when ids are distinct. */
  lemma DeleteForgets(s: seq<Slot>, id: Uuid)
    requires UniqueIds(s) && FirstById(s, id).Some?
    ensures RetrieveSpec(s[FirstById(s, id).value := None], id) == Err(RecordNotFound)
  {
    var i := FirstById(s, id).value;
    var t := s[i := None];
    forall k | 0 <= k < |t| ensures !HoldsId(t[k], id) {
      if k > i && s[k].Some? {
        assert s[i].value.id != s[k].value.id;
      }
    }
  }

  /** Writing nil into one group's slot does not change what any other id retrieves. */
  lemma DeleteKeepsOthers(s: seq<Slot>, id: Uuid, other: Uuid)
    requires FirstById(s, id).Some? && other != id
    ensures RetrieveSpec(s[FirstById(s, id).value := None], other) == RetrieveSpec(s, other)
  {
    var i := FirstById(s, id).value;
    FirstByIdAfterClear(s, i, other);
  }

  lemma {:induction false} FirstByIdAfterClear(s: seq<Slot>, i: nat, other: Uuid)
    requires i < |s| && !HoldsId(s[i], other)
    ensures FirstById(s[i := None], other) == FirstById(s, other)
  {
    if s != [] && i > 0 {
      assert s[i := None][1..] == s[1..][i - 1 := None];
      FirstByIdAfterClear(s[1..], i - 1, other);
    } else if s != [] {
      assert s[i := None][1..] == s[1..];
    }
  }

  /** A group appended to the table is found by its id unless an earlier group has it. */
  lemma CreateThenRetrieve(s: seq<Slot>, g: FlavorGroup)
    ensures RetrieveSpec(s + [Some(g)], g.id) ==
      (if FirstById(s, g.id).Some? then RetrieveSpec(s, g.id) else Ok(g))
  {
    FirstByIdAppend(s, Some(g), g.id);
  }

  lemma {:induction false} FirstByIdAppend(s: seq<Slot>, slot: Slot, id: Uuid)
    ensures FirstById(s + [slot], id) ==
      (if FirstById(s, id).Some? then FirstById(s, id) else if HoldsId(slot, id) then Some(|s|) else None)
  {
    if s != [] {
      assert (s + [slot])[1..] == s[1..] + [slot];
      FirstByIdAppend(s[1..], slot, id);
    } else {
      assert s + [slot] == [slot];
    }
  }

  /** On the seeded table, the ids the tests use find their groups. */
  lemma SeededSearchById()
    ensures SearchSpec(Seeded, Some(FlavorGroupFilterCriteria("ee37c360-7eae-4250-a677-6ee12adce8e2", "", "")))
      == Returns(Some([Some(Test1)]))
    ensures SearchSpec(Seeded, Some(FlavorGroupFilterCriteria("e57e5ea0-d465-461e-882d-1600090caa0d", "", "")))
      == Returns(Some([Some(Test2)]))
  {
    SeededIdText();
    SeededRetrieve();
  }

  lemma SeededRetrieve()
    ensures RetrieveSpec(Seeded, Test1Id) == Ok(Test1)
    ensures RetrieveSpec(Seeded, Test2Id) == Ok(Test2)
  {
    assert Test1Id[0] != Test2Id[0];
    assert HoldsId(Seeded[0], Test1Id);
    assert HoldsId(Seeded[1], Test2Id);
    assert !HoldsId(Seeded[0], Test2Id);
  }

  /** On the seeded table, the exact name of the second group finds it alone. */
  lemma SeededSearchByName()
    ensures SearchSpec(Seeded, Some(FlavorGroupFilterCriteria("", "hvs_flavorgroup_test2", ""))) == Returns(Some([Some(Test2)]))
  {
    assert !HoldsName(Seeded[0], "hvs_flavorgroup_test2");
    assert HoldsName(Seeded[1], "hvs_flavorgroup_test2");
  }

  // ---------------------------------------------------------------------------
  // As written: the scans dereference every slot, including the nil ones Delete leaves

  /**
   * `Retrieve`'s (and `Delete`'s) scan as the source writes it: it reads the id of each
   * slot it passes, so a nil slot before the first match is a nil dereference.
   */
  function FirstByIdAsWritten(s: seq<Slot>, id: Uuid): (r: Outcome<Option<nat>>)
    ensures r.Panics? <==> exists k :: 0 <= k < |s| && s[k].None? && forall j :: 0 <= j < k ==> !HoldsId(s[j], id)
    ensures r.Returns? && r.value.Some? ==> r.value.value < |s| && HoldsId(s[r.value.value], id)
    ensures (forall k :: 0 <= k < |s| ==> s[k].Some?) ==> r == Returns(FirstById(s, id))
  {
    if s == [] then Returns(None)
    else if s[0].None? then Panics(NilDereference)
    else if s[0].value.id == id then Returns(Some(0))
    else match FirstByIdAsWritten(s[1..], id)
      case Returns(Some(k)) => Returns(Some(k + 1))
      case Returns(None) => Returns(None)
      case Panics(why) => Panics(why)
  }

  /** The exact-name scan of `Search` as written: a nil slot before the first match is a nil dereference. */
  function FirstByNameAsWritten(s: seq<Slot>, name: string): (r: Outcome<Option<nat>>)
    ensures r.Panics? <==> exists k :: 0 <= k < |s| && s[k].None? && forall j :: 0 <= j < k ==> !HoldsName(s[j], name)
    ensures r.Returns? && r.value.Some? ==> r.value.value < |s| && HoldsName(s[r.value.value], name)
    ensures (forall k :: 0 <= k < |s| ==> s[k].Some?) ==> r == Returns(FirstByName(s, name))
  {
    if s == [] then Returns(None)
    else if s[0].None? then Panics(NilDereference)
    else if s[0].value.name == name then Returns(Some(0))
    else match FirstByNameAsWritten(s[1..], name)
      case Returns(Some(k)) => Returns(Some(k + 1))
      case Returns(None) => Returns(None)
      case Panics(why) => Panics(why)
  }

  /** The name-substring scan of `Search` as written: it reads every slot's name, so any nil slot panics. */
  function NameContainsAsWritten(s: seq<Slot>, sub: string): (r: Outcome<seq<Slot>>)
    ensures r.Panics? <==> exists k :: 0 <= k < |s| && s[k].None?
    ensures r.Returns? ==> r.value == NameContainsMatches(s, sub)
  {
    if s == [] then Returns([])
    else
      var n := |s| - 1;
      match NameContainsAsWritten(s[..n], sub)
      case Panics(why) => Panics(why)
      case Returns(done) =>
        if s[n].None? then Panics(NilDereference)
        else Returns(done + (if Contains(s[n].value.name, sub) then [s[n]] else []))
  }

  /**
   * `Search` as written: the id branch goes through `Retrieve`'s scan, and the name
   * branches through the scans above. On a table without nil slots it is `SearchSpec`.
   */
  function SearchAsWritten(s: seq<Slot>, criteria: Option<FlavorGroupFilterCriteria>): (r: Outcome<Collection>)
    ensures (forall k :: 0 <= k < |s| ==> s[k].Some?) ==> r == SearchSpec(s, criteria)
  {
    if criteria.None? then Returns(Some(s))
    else
      var c := criteria.value;
      if c.id != "" then
        match Parse(c.id)
        case None => Panics(InvalidUuid)
        case Some(u) =>
          match FirstByIdAsWritten(s, u)
          case Panics(why) => Panics(why)
          case Returns(Some(i)) => Returns(Some([s[i]]))
          case Returns(None) => Returns(Some([None]))
      else if c.nameEqualTo != "" then
        match FirstByNameAsWritten(s, c.nameEqualTo)
        case Panics(why) => Panics(why)
        case Returns(Some(i)) => Returns(Some([s[i]]))
        case Returns(None) => Returns(None)
      else if c.nameContains != "" then
        match NameContainsAsWritten(s, c.nameContains)
        case Panics(why) => Panics(why)
        case Returns(found) => Returns(Some(found))
      else Returns(None)
  }

  /**
   * The seeded table, after deleting the first group, panics when the second is searched
   * for by its exact name or by a piece of it; passing over nil slots finds it.
   */
  lemma DeleteThenSearchPanics()
    ensures SearchAsWritten(Seeded[0 := None], Some(FlavorGroupFilterCriteria("", "hvs_flavorgroup_test2", ""))).Panics?
    ensures SearchAsWritten(Seeded[0 := None], Some(FlavorGroupFilterCriteria("", "", "test2"))).Panics?
    ensures SearchSpec(Seeded[0 := None], Some(FlavorGroupFilterCriteria("", "hvs_flavorgroup_test2", "")))
      == Returns(Some([Some(Test2)]))
  {
    var t := Seeded[0 := None];
    assert t[0].None?;
    assert !HoldsName(t[0], "hvs_flavorgroup_test2");
    assert HoldsName(t[1], "hvs_flavorgroup_test2");
  }

  /**
   * The seeded table, after deleting the first group, panics when the second is retrieved;
   * passing over nil slots retrieves it.
   */
  lemma DeleteThenRetrievePanics()
    ensures FirstById(Seeded, Test1Id) == Some(0)
    ensures FirstByIdAsWritten(Seeded[0 := None], Test2Id).Panics?
    ensures RetrieveSpec(Seeded[0 := None], Test2Id) == Ok(Test2)
  {
    var t := Seeded[0 := None];
    assert t[0].None?;
    assert HoldsId(t[1], Test2Id);
  }

  // ---------------------------------------------------------------------------
  // The store

  class MockFlavorgroupStore {
    var flavorgroupStore: seq<Slot>

    constructor ()
      ensures flavorgroupStore == []
    {
      flavorgroupStore := [];
    }

    /** `NewFakeFlavorgroupStore`: an empty table into which the two test groups are created. */
    constructor NewFake()
      ensures flavorgroupStore == Seeded
    {
      flavorgroupStore := [];
      new;
      var _, _ := Create(Some(Test1));
      var _, _ := Create(Some(Test2));
    }

    /** Appends the group (which may be nil) and returns it. */
    method Create(flavorgroup: Slot) returns (created: Slot, err: Option<string>)
      modifies this
      ensures flavorgroupStore == old(flavorgroupStore) + [flavorgroup]
      ensures created == flavorgroup && err == None
    {
      flavorgroupStore := flavorgroupStore + [flavorgroup];
      created, err := flavorgroup, None;
    }

    /** The first group with the id, else "record not found". */
    method Retrieve(id: Uuid) returns (r: Result<FlavorGroup, string>)
      ensures r == RetrieveSpec(flavorgroupStore, id)
    {
      var i := 0;
      while i < |flavorgroupStore|
        invariant 0 <= i <= |flavorgroupStore|
        invariant forall k :: 0 <= k < i ==> !HoldsId(flavorgroupStore[k], id)
      {
        var fg := flavorgroupStore[i];
        if fg.Some? && fg.value.id == id {
          return Ok(fg.value);
        }
        i := i + 1;
      }
      return Err(RecordNotFound);
    }

    /** Writes nil into the slot of the first group with the id; the table keeps its length. */
    method Delete(id: Uuid) returns (err: Option<string>)
      modifies this
      ensures FirstById(old(flavorgroupStore), id).Some? ==>
        && err == None
        && flavorgroupStore == old(flavorgroupStore)[FirstById(old(flavorgroupStore), id).value := None]
      ensures FirstById(old(flavorgroupStore), id).None? ==>
        err == Some(RecordNotFound) && flavorgroupStore == old(flavorgroupStore)
    {
      var i := 0;
      while i < |flavorgroupStore|
        invariant 0 <= i <= |flavorgroupStore|
        invariant flavorgroupStore == old(flavorgroupStore)
        invariant forall k :: 0 <= k < i ==> !HoldsId(flavorgroupStore[k], id)
      {
        var fg := flavorgroupStore[i];
        if fg.Some? && fg.value.id == id {
          flavorgroupStore := flavorgroupStore[i := None];
          return None;
        }
        i := i + 1;
      }
      return Some(RecordNotFound);
    }

    /** Picks one criterion by precedence; the table itself is not changed. */
    method Search(criteria: Option<FlavorGroupFilterCriteria>) returns (r: Outcome<Collection>)
      ensures r == SearchSpec(flavorgroupStore, criteria)
    {
      if criteria.None? {
        return Returns(Some(flavorgroupStore));
      }
      var c := criteria.value;
      if c.id != "" {
        var parsed := Parse(c.id);
        if parsed.None? {
          return Panics(InvalidUuid);
        }
        var found := Retrieve(parsed.value);
        var fg := if found.Ok? then Some(found.value) else None;
        return Returns(Some([fg]));
      } else if c.nameEqualTo != "" {
        var i := 0;
        while i < |flavorgroupStore|
          invariant 0 <= i <= |flavorgroupStore|
          invariant forall k :: 0 <= k < i ==> !HoldsName(flavorgroupStore[k], c.nameEqualTo)
        {
          var fg := flavorgroupStore[i];
          if fg.Some? && fg.value.name == c.nameEqualTo {
            return Returns(Some([fg]));
          }
          i := i + 1;
        }
      } else if c.nameContains != "" {
        var flavorgroups := [];
        var i := 0;
        while i < |flavorgroupStore|
          invariant 0 <= i <= |flavorgroupStore|
          invariant flavorgroups == NameContainsMatches(flavorgroupStore[..i], c.nameContains)
        {
          assert flavorgroupStore[..i + 1][..i] == flavorgroupStore[..i];
          var fg := flavorgroupStore[i];
          if fg.Some? && Contains(fg.value.name, c.nameContains) {
            flavorgroups := flavorgroups + [fg];
          }
          i := i + 1;
        }
        assert flavorgroupStore[..i] == flavorgroupStore;
        return Returns(Some(flavorgroups));
      }
      return Returns(None);
    }
  }
}
