/**
 * The host-status store's search over the audit log: the WHERE-clause text built from a
 * filter record, the choice between the latest-status table and the audit log, the
 * filtering of audit rows, and the guard on updates. The database, the clock and the
 * date formatter are parameters.
 */
module HostStatusStore {
  import opened Wrappers
  import opened Strings
  import opened Uuids

  /** An instant as whole seconds since Go's zero time, in UTC. */
  datatype Time = Time(seconds: int)

  /** `time.Time.IsZero`. */
  predicate IsZero(t: Time) {
    t.seconds == 0
  }

  /** `t.AddDate(0, 0, days)` in UTC, where every day has 86400 seconds. */
  function AddDays(t: Time, days: int): (r: Time)
    ensures r.seconds - t.seconds == 86400 * days
  {
    Time(t.seconds + 86400 * days)
  }

  /** A filter field that is Nil, empty, zero or false is "not set". */
  datatype HostStatusFilterCriteria = HostStatusFilterCriteria(
    id: Uuid,
    hostId: Uuid,
    hostHardwareId: Uuid,
    hostName: string,
    hostStatus: string,
    fromDate: Time,
    toDate: Time,
    latestPerHost: bool,
    numberOfDays: int,
    limit: int)

  /** `tx.Raw(sql).Limit(limit)`: the raw query handed to the database. */
  datatype RawQuery = RawQuery(sql: string, limit: int)

  /** `errors.Wrap`. */
  function Wrap(err: string, message: string): string {
    message + ": " + err
  }

  /** A wrapped error starts with the message it was wrapped in. */
  lemma WrapPrefix(err: string, message: string)
    ensures HasPrefix(Wrap(err, message), message)
  {
    assert (message + ": " + err)[..|message|] == message;
  }

  // ---------------------------------------------------------------------------
  // The fixed texts of the query

  /**
   * The fixed texts the query is assembled from. The operations below are stated for any
   * such texts; `Sql` holds the ones the store writes.
   */
  datatype SqlTexts = SqlTexts(
    auditLog: string,
    auditLogLatest: string,
    selectAll: string,
    where: string,
    entityTypeIsHostStatus: string,
    innerJoin: string,
    hostOn: string,
    hostIdColumn: string,
    hostNameColumn: string,
    hardwareUuidColumn: string,
    hostStateColumn: string,
    entityIdColumn: string,
    joinedHostId: string,
    joinedHostName: string,
    joinedHardwareUuid: string,
    equalsQuote: string,
    quote: string,
    space: string,
    and: string,
    lower: string,
    closeParen: string,
    castOpen: string,
    createdAtLeast: string,
    createdAtMost: string,
    asTimestamp: string,
    maxDateSelect: string,
    maxDate: string,
    fromKeyword: string,
    latestAuditLog: string,
    maxDateTail: string,
    orderByCreated: string)

  const Sql: SqlTexts := SqlTexts(
    "au",
    "auj",
    "SELECT au.* FROM audit_log_entry au",
    "WHERE ",
    ".entity_type = 'HostStatus' ",
    "INNER JOIN ",
    "host h on CAST(h.id AS VARCHAR) = ",
    ".data -> 'columns' -> 1 ->> 'value'",
    ".data -> 'columns' -> 4 -> 'value' -> 'host_info' ->> 'host_name'",
    ".data -> 'columns' -> 4 -> 'value' -> 'host_info' ->> 'hardware_uuid'",
    ".data -> 'columns' -> 2 -> 'value' ->> 'host_state'",
    ".entity_id",
    "h.id",
    "h.name",
    "h.hardware_uuid",
    " = '",
    "'",
    " ",
    " AND ",
    "LOWER(",
    ")",
    "CAST(",
    ".created AS TIMESTAMP) >= CAST('",
    ".created AS TIMESTAMP) <= CAST('",
    "' AS TIMESTAMP)",
    "INNER JOIN (SELECT entity_id, max(auj.created) AS ",
    "max_date",
    "FROM",
    " audit_log_entry auj ",
    " GROUP BY entity_id) a ON a.entity_id = au.entity_id AND a.max_date = au.created",
    " ORDER BY au.Created DESC")

  /** The host join is never empty, and the options tell it from the WHERE clause by their first letter. */
  predicate WellFormed(t: SqlTexts) {
    t.innerJoin != [] && t.where != [] && t.where[0] != t.innerJoin[0]
  }

  lemma SqlWellFormed()
    ensures WellFormed(Sql)
  {
    assert Sql.where == "WHERE ";
    assert Sql.innerJoin == "INNER JOIN ";
  }

  /**
   * The text forms the query writes values in: a uuid's `String` form, which the store
   * takes from `Uuids.Format`, and a time's `constants.ParamDateFormatUTC` form, which is
   * a parameter.
   */
  datatype Formats = Formats(uuid: Uuid -> string, date: Time -> string)

  // ---------------------------------------------------------------------------
  // The clauses

  /** The audit table's alias in the WHERE clause: the sub-query's when only the latest rows are wanted. */
  function Alias(t: SqlTexts, f: HostStatusFilterCriteria): string {
    if f.latestPerHost then t.auditLogLatest else t.auditLog
  }

  /** Restricts the audit records to host statuses. */
  function BaseClause(t: SqlTexts, a: string): string {
    t.where + a + t.entityTypeIsHostStatus
  }

  /** Joins the host table on the host id kept in the audit record. */
  function HostJoin(t: SqlTexts, a: string): string {
    t.innerJoin + t.hostOn + a + t.hostIdColumn
  }

  /** `column = 'value'`. */
  function Equals(t: SqlTexts, column: string, value: string): string {
    column + t.equalsQuote + value + t.quote
  }

  /** With the host table joined, the host is matched by its columns; otherwise by the audit record's JSON. */
  function HostIdClause(t: SqlTexts, a: string, joined: bool, hostId: string): string {
    if joined then Equals(t, t.joinedHostId, hostId) else Equals(t, a + t.hostIdColumn, hostId)
  }

  function HostNameClause(t: SqlTexts, a: string, joined: bool, name: string): string {
    if joined then Equals(t, t.joinedHostName, name) else Equals(t, a + t.hostNameColumn, name)
  }

  function HardwareUuidClause(t: SqlTexts, a: string, joined: bool, hw: string): string {
    if joined then Equals(t, t.joinedHardwareUuid, hw)
    else Equals(t, t.lower + a + t.hardwareUuidColumn + t.closeParen, ToLower(hw)) + t.space
  }

  /** Host states are stored upper-case. */
  function HostStateClause(t: SqlTexts, a: string, state: string): string {
    Equals(t, a + t.hostStateColumn, ToUpper(state))
  }

  function StatusIdClause(t: SqlTexts, a: string, id: string): string {
    Equals(t, a + t.entityIdColumn, id)
  }

  function FromClause(t: SqlTexts, a: string, from: string): string {
    t.castOpen + a + t.createdAtLeast + from + t.asTimestamp
  }

  function ToClause(t: SqlTexts, a: string, to: string): string {
    t.castOpen + a + t.createdAtMost + to + t.asTimestamp
  }

  function FromToClause(t: SqlTexts, a: string, from: string, to: string): string {
    FromClause(t, a, from) + t.and + ToClause(t, a, to) + t.space
  }

  /** The sub-query that keeps, per host, only its latest audit record. */
  function MaxDateJoin(t: SqlTexts, options: string): string {
    t.maxDateSelect + t.maxDate + t.space + t.fromKeyword + t.latestAuditLog + options + t.maxDateTail
  }


  // ---------------------------------------------------------------------------
  // Specification of the query text

  /** One filter field's contribution: whether the field is set, and the clause it adds if so. */
  datatype Clause = Clause(given: bool, text: string)

  /** `options AND clause` when the field is set, the options unchanged otherwise. */
  function AndIf(t: SqlTexts, options: string, c: Clause): string {
    if c.given then options + t.and + c.text else options
  }

  /** The options with the clause of every set field appended, in list order. */
  function AndAll(t: SqlTexts, options: string, cs: seq<Clause>): string {
    if cs == [] then options else AndIf(t, AndAll(t, options, cs[..|cs| - 1]), cs[|cs| - 1])
  }

  /** The filter the query is built from: a day count replaces the from-date by "now minus that many days". */
  function EffectiveFilter(f: HostStatusFilterCriteria, now: Time): (g: HostStatusFilterCriteria)
    ensures f.numberOfDays != 0 ==> g.fromDate == AddDays(now, -f.numberOfDays)
    ensures f.numberOfDays == 0 ==> g == f
    ensures g.(fromDate := f.fromDate) == f
  {
    if f.numberOfDays != 0 then f.(fromDate := AddDays(now, -f.numberOfDays)) else f
  }

  /** A date clause is wanted when either date is set. */
  predicate DateGiven(f: HostStatusFilterCriteria) {
    !IsZero(f.fromDate) || !IsZero(f.toDate)
  }

  /** The one clause for whichever of the two dates are set. */
  function DateText(t: SqlTexts, a: string, from: Time, to: Time, fm: Formats): string {
    if !IsZero(from) && IsZero(to) then FromClause(t, a, fm.date(from))
    else if IsZero(from) && !IsZero(to) then ToClause(t, a, fm.date(to))
    else FromToClause(t, a, fm.date(from), fm.date(to))
  }

  /**
   * Every filter field's clause, in the fixed order host id, host name, hardware uuid, host
   * state, status id, dates. With a host name the host is tested on the joined host table,
   * otherwise on the audit record's JSON.
   */
  function FilterClauses(t: SqlTexts, f: HostStatusFilterCriteria, fm: Formats): seq<Clause> {
    var a, joined := Alias(t, f), f.hostName != "";
    [Clause(f.hostId != Nil, HostIdClause(t, a, joined, fm.uuid(f.hostId))),
     Clause(f.hostName != "", HostNameClause(t, a, joined, f.hostName)),
     Clause(f.hostHardwareId != Nil, HardwareUuidClause(t, a, joined, fm.uuid(f.hostHardwareId))),
     Clause(f.hostStatus != "", HostStateClause(t, a, f.hostStatus)),
     Clause(f.id != Nil, StatusIdClause(t, a, fm.uuid(f.id))),
     Clause(DateGiven(f), DateText(t, a, f.fromDate, f.toDate, fm))]
  }

  /** The WHERE clause: the base clause, then ` AND clause` for each filter field that is set. */
  function WhereClause(t: SqlTexts, f: HostStatusFilterCriteria, fm: Formats): string {
    AndAll(t, BaseClause(t, Alias(t, f)), FilterClauses(t, f, fm))
  }

  /** The options string: the host join when a host name is given, then the WHERE clause. */
  function Options(t: SqlTexts, f: HostStatusFilterCriteria, fm: Formats): string {
    if f.hostName != "" then HostJoin(t, Alias(t, f)) + t.space + WhereClause(t, f, fm)
    else WhereClause(t, f, fm)
  }

  /**
   * The query: every column of the audit records the options admit, or, when only the
   * latest rows are wanted, of each host's latest such record. Either way the options are
   * part of it.
   */
  function QueryText(t: SqlTexts, f: HostStatusFilterCriteria, fm: Formats): (q: string)
    ensures HasPrefix(q, t.selectAll + t.space)
    ensures Contains(q, Options(t, f, fm))
  {
    var head, o := t.selectAll + t.space, Options(t, f, fm);
    if f.latestPerHost then
      var pre := t.maxDateSelect + t.maxDate + t.space + t.fromKeyword + t.latestAuditLog;
      var post := t.maxDateTail + t.orderByCreated;
      assert head + MaxDateJoin(t, o) + t.orderByCreated == (head + pre) + o + post;
      ContainsPiece(head + pre, o, post);
      assert (head + MaxDateJoin(t, o) + t.orderByCreated)[..|head|] == head;
      head + MaxDateJoin(t, o) + t.orderByCreated
    else
      assert head + o == head + o + [];
      ContainsPiece(head, o, []);
      head + o
  }

  // ---------------------------------------------------------------------------
  // Properties of the query text

  /** A piece of the head of a text is a piece of the text. */
  lemma PrefixContains(head: string, tail: string, sub: string)
    requires Contains(head, sub)
    ensures Contains(head + tail, sub)
  {
    var i :| 0 <= i <= |head| - |sub| && OccursAt(head, sub, i);
    assert (head + tail)[i..i + |sub|] == head[i..i + |sub|];
    assert OccursAt(head + tail, sub, i);
  }

  /** Appending a clause keeps what the options start with and adds ` AND clause` at the end. */
  lemma AndIfKeeps(t: SqlTexts, options: string, c: Clause, p: string)
    requires HasPrefix(options, p)
    ensures HasPrefix(AndIf(t, options, c), p)
    ensures c.given ==> Contains(AndIf(t, options, c), t.and + c.text)
  {
    var s := options + t.and + c.text;
    assert s[..|p|] == options[..|p|];
    assert s[|options|..|options| + |t.and + c.text|] == t.and + c.text;
    assert OccursAt(s, t.and + c.text, |options|);
  }

  /** One more field appends its clause, if set, after the ones before it. */
  lemma AndAllSnoc(t: SqlTexts, options: string, cs: seq<Clause>, c: Clause)
    ensures AndAll(t, options, cs + [c]) == AndIf(t, AndAll(t, options, cs), c)
  {
    assert (cs + [c])[..|cs|] == cs;
  }

  /** The options always start with what they were before any clause was appended. */
  lemma {:induction false} AndAllKeepsPrefix(t: SqlTexts, options: string, cs: seq<Clause>)
    ensures HasPrefix(AndAll(t, options, cs), options)
  {
    if cs == [] {
      assert options[..|options|] == options;
    } else {
      AndAllKeepsPrefix(t, options, cs[..|cs| - 1]);
      AndIfKeeps(t, AndAll(t, options, cs[..|cs| - 1]), cs[|cs| - 1], options);
    }
  }

  /** Every set field's ` AND clause` occurs in the options. */
  lemma {:induction false} AndAllHoldsGiven(t: SqlTexts, options: string, cs: seq<Clause>, k: nat)
    requires k < |cs| && cs[k].given
    ensures Contains(AndAll(t, options, cs), t.and + cs[k].text)
  {
    var n := |cs| - 1;
    var before := AndAll(t, options, cs[..n]);
    if k == n {
      AndIfKeeps(t, before, cs[n], before);
    } else {
      AndAllHoldsGiven(t, options, cs[..n], k);
      if cs[n].given {
        PrefixContains(before, t.and + cs[n].text, t.and + cs[k].text);
        assert before + (t.and + cs[n].text) == before + t.and + cs[n].text;
      }
    }
  }

  /** Six fields, spelled out: one clause per set field, appended in the fixed order. */
  lemma AndAllSix(t: SqlTexts, options: string, cs: seq<Clause>)
    requires |cs| == 6
    ensures AndAll(t, options, cs)
      == AndIf(t, AndIf(t, AndIf(t, AndIf(t, AndIf(t, AndIf(t, options, cs[0]), cs[1]), cs[2]), cs[3]), cs[4]), cs[5])
  {
    assert cs[..0] + [cs[0]] == cs[..1];
    assert cs[..1] + [cs[1]] == cs[..2];
    assert cs[..2] + [cs[2]] == cs[..3];
    assert cs[..3] + [cs[3]] == cs[..4];
    assert cs[..4] + [cs[4]] == cs[..5];
    assert cs[..5] + [cs[5]] == cs;
    AndAllSnoc(t, options, cs[..0], cs[0]);
    AndAllSnoc(t, options, cs[..1], cs[1]);
    AndAllSnoc(t, options, cs[..2], cs[2]);
    AndAllSnoc(t, options, cs[..3], cs[3]);
    AndAllSnoc(t, options, cs[..4], cs[4]);
    AndAllSnoc(t, options, cs[..5], cs[5]);
  }

  /**
   * The WHERE clause is the base clause followed, in the fixed order host id, host name,
   * hardware uuid, host state, status id, dates, by exactly one clause per field that is set.
   */
  lemma WhereClauseInOrder(t: SqlTexts, f: HostStatusFilterCriteria, a: string, joined: bool, fm: Formats)
    requires a == Alias(t, f) && joined == (f.hostName != "")
    ensures WhereClause(t, f, fm) == AndIf(t, AndIf(t, AndIf(t, AndIf(t, AndIf(t, AndIf(t,
           BaseClause(t, a),
           Clause(f.hostId != Nil, HostIdClause(t, a, joined, fm.uuid(f.hostId)))),
           Clause(f.hostName != "", HostNameClause(t, a, joined, f.hostName))),
           Clause(f.hostHardwareId != Nil, HardwareUuidClause(t, a, joined, fm.uuid(f.hostHardwareId)))),
           Clause(f.hostStatus != "", HostStateClause(t, a, f.hostStatus))),
           Clause(f.id != Nil, StatusIdClause(t, a, fm.uuid(f.id)))),
           Clause(DateGiven(f), DateText(t, a, f.fromDate, f.toDate, fm)))
  {
    AndAllSix(t, BaseClause(t, a), FilterClauses(t, f, fm));
  }

  /**
   * The builder's steps in the builder's order: the host and status clauses from the
   * caller's filter, then the date clause from the filter with the day count applied.
   */
  lemma WhereClauseSteps(t: SqlTexts, f: HostStatusFilterCriteria, a: string, joined: bool, now: Time,
                         fm: Formats, beforeDates: string)
    requires a == Alias(t, f) && joined == (f.hostName != "")
    requires beforeDates == AndIf(t, AndIf(t, AndIf(t, AndIf(t, AndIf(t,
           BaseClause(t, a),
           Clause(f.hostId != Nil, HostIdClause(t, a, joined, fm.uuid(f.hostId)))),
           Clause(f.hostName != "", HostNameClause(t, a, joined, f.hostName))),
           Clause(f.hostHardwareId != Nil, HardwareUuidClause(t, a, joined, fm.uuid(f.hostHardwareId)))),
           Clause(f.hostStatus != "", HostStateClause(t, a, f.hostStatus))),
           Clause(f.id != Nil, StatusIdClause(t, a, fm.uuid(f.id))))
    ensures var g := EffectiveFilter(f, now);
      AndIf(t, beforeDates, Clause(!IsZero(g.fromDate) || !IsZero(g.toDate), DateText(t, a, g.fromDate, g.toDate, fm)))
      == WhereClause(t, g, fm)
  {
    var g := EffectiveFilter(f, now);
    assert g.(fromDate := f.fromDate) == f;
    WhereClauseInOrder(t, g, a, joined, fm);
  }

  /** With no filter set, the options are the base clause alone. */
  lemma NoFilterGivesBase(t: SqlTexts, f: HostStatusFilterCriteria, fm: Formats)
    requires f.hostId == Nil && f.hostName == "" && f.hostHardwareId == Nil && f.hostStatus == "" && f.id == Nil
    requires IsZero(f.fromDate) && IsZero(f.toDate)
    ensures Options(t, f, fm) == BaseClause(t, Alias(t, f))
  {
    AndAllSix(t, BaseClause(t, Alias(t, f)), FilterClauses(t, f, fm));
  }

  /** The WHERE clause starts with the base clause, and every filter field that is set contributes its clause. */
  lemma WhereHoldsSetFilters(t: SqlTexts, f: HostStatusFilterCriteria, fm: Formats, k: nat)
    requires k < 6 && FilterClauses(t, f, fm)[k].given
    ensures HasPrefix(WhereClause(t, f, fm), BaseClause(t, Alias(t, f)))
    ensures Contains(WhereClause(t, f, fm), t.and + FilterClauses(t, f, fm)[k].text)
  {
    AndAllKeepsPrefix(t, BaseClause(t, Alias(t, f)), FilterClauses(t, f, fm));
    AndAllHoldsGiven(t, BaseClause(t, Alias(t, f)), FilterClauses(t, f, fm), k);
  }

  /** The options start with the host join exactly when a host name is given; else with the WHERE clause. */
  lemma JoinIffHostName(t: SqlTexts, f: HostStatusFilterCriteria, fm: Formats)
    requires WellFormed(t)
    ensures HasPrefix(Options(t, f, fm), HostJoin(t, Alias(t, f))) <==> f.hostName != ""
    ensures f.hostName == "" ==> HasPrefix(Options(t, f, fm), BaseClause(t, Alias(t, f)))
  {
    var a := Alias(t, f);
    var base, where := BaseClause(t, a), WhereClause(t, f, fm);
    AndAllKeepsPrefix(t, base, FilterClauses(t, f, fm));
    if f.hostName != "" {
      assert (HostJoin(t, a) + t.space + where)[..|HostJoin(t, a)|] == HostJoin(t, a);
    } else {
      assert where[0] == base[0] == t.where[0];
      assert HostJoin(t, a)[0] == t.innerJoin[0];
    }
  }

  /** The options hold the base clause, which restricts the audit table, under its alias, to host-status records. */
  lemma WhereUsesAlias(t: SqlTexts, f: HostStatusFilterCriteria, fm: Formats)
    ensures Contains(Options(t, f, fm), BaseClause(t, Alias(t, f)))
    ensures Alias(t, f) == (if f.latestPerHost then t.auditLogLatest else t.auditLog)
  {
    var a := Alias(t, f);
    var base, where := BaseClause(t, a), WhereClause(t, f, fm);
    AndAllKeepsPrefix(t, base, FilterClauses(t, f, fm));
    if f.hostName != "" {
      PrefixContained(HostJoin(t, a) + t.space, where, base);
    } else {
      PrefixContained([], where, base);
    }
  }

  /**
   * The date clause bounds the creation time from below by every set from-date and from
   * above by every set to-date; with both set, one clause holds both bounds.
   */
  lemma DateTextHoldsBounds(t: SqlTexts, a: string, from: Time, to: Time, fm: Formats)
    ensures !IsZero(from) ==> Contains(DateText(t, a, from, to, fm), a + t.createdAtLeast + fm.date(from) + t.asTimestamp)
    ensures !IsZero(to) ==> Contains(DateText(t, a, from, to, fm), a + t.createdAtMost + fm.date(to) + t.asTimestamp)
  {
    var lo := a + t.createdAtLeast + fm.date(from) + t.asTimestamp;
    var hi := a + t.createdAtMost + fm.date(to) + t.asTimestamp;
    var text := DateText(t, a, from, to, fm);
    if !IsZero(from) && IsZero(to) {
      assert text == t.castOpen + lo + [];
      ContainsPiece(t.castOpen, lo, []);
    } else if IsZero(from) && !IsZero(to) {
      assert text == t.castOpen + hi + [];
      ContainsPiece(t.castOpen, hi, []);
    } else if !IsZero(from) && !IsZero(to) {
      assert text == t.castOpen + lo + (t.and + t.castOpen + hi + t.space);
      ContainsPiece(t.castOpen, lo, t.and + t.castOpen + hi + t.space);
      assert text == (t.castOpen + lo + t.and + t.castOpen) + hi + t.space;
      ContainsPiece(t.castOpen + lo + t.and + t.castOpen, hi, t.space);
    }
  }

  /** The host state is matched upper-cased, so a state and its upper-case form give the same query. */
  lemma HostStateCaseInsensitive(t: SqlTexts, f: HostStatusFilterCriteria, fm: Formats)
    ensures QueryText(t, f.(hostStatus := ToUpper(f.hostStatus)), fm) == QueryText(t, f, fm)
  {
    ToUpperIdempotent(f.hostStatus);
    var g := f.(hostStatus := ToUpper(f.hostStatus));
    var a := Alias(t, f);
    assert Alias(t, g) == a;
    assert HostStateClause(t, a, g.hostStatus) == HostStateClause(t, a, f.hostStatus);
    assert FilterClauses(t, g, fm) == FilterClauses(t, f, fm);
  }

  /** Lower-casing the hardware UUID changes nothing: its text form has no upper-case letter. */
  lemma HardwareUuidLowerCase(t: SqlTexts, a: string, hw: Uuid)
    ensures ToLower(Format(hw)) == Format(hw)
    ensures HardwareUuidClause(t, a, false, Format(hw)) == Equals(t, t.lower + a + t.hardwareUuidColumn + t.closeParen, Format(hw)) + t.space
  {
    ToLowerFixes(Format(hw));
  }

  /** A day count makes the caller's from-date irrelevant. */
  lemma NumberOfDaysOverridesFromDate(t: SqlTexts, f: HostStatusFilterCriteria, from: Time, now: Time, fm: Formats)
    requires f.numberOfDays != 0
    ensures QueryText(t, EffectiveFilter(f.(fromDate := from), now), fm)
      == QueryText(t, EffectiveFilter(f, now), fm)
  {
    assert EffectiveFilter(f.(fromDate := from), now) == EffectiveFilter(f, now);
  }

  /** Without a day count, the clock does not enter the query. */
  lemma NoDaysIgnoresClock(t: SqlTexts, f: HostStatusFilterCriteria, now1: Time, now2: Time, fm: Formats)
    requires f.numberOfDays == 0
    ensures QueryText(t, EffectiveFilter(f, now1), fm) == QueryText(t, EffectiveFilter(f, now2), fm)
  {
  }

  // ---------------------------------------------------------------------------
  // The query builder

  /**
   * The host part of the builder: with the host table joined, the host id, name and hardware
   * uuid are tested on its columns; otherwise on the audit record's JSON.
   */
  method AppendHostConditions(t: SqlTexts, options: string, a: string, joined: bool, hsFilter: HostStatusFilterCriteria, fm: Formats)
    returns (out: string)
    ensures out == AndIf(t, AndIf(t, AndIf(t, options,
      Clause(hsFilter.hostId != Nil, HostIdClause(t, a, joined, fm.uuid(hsFilter.hostId)))),
      Clause(hsFilter.hostName != "", HostNameClause(t, a, joined, hsFilter.hostName))),
      Clause(hsFilter.hostHardwareId != Nil, HardwareUuidClause(t, a, joined, fm.uuid(hsFilter.hostHardwareId))))
  {
    out := options;
    if joined {
      if hsFilter.hostId != Nil {
        out := out + t.and + HostIdClause(t, a, true, fm.uuid(hsFilter.hostId));
      }
      if hsFilter.hostName != "" {
        out := out + t.and + HostNameClause(t, a, true, hsFilter.hostName);
      }
      if hsFilter.hostHardwareId != Nil {
        out := out + t.and + HardwareUuidClause(t, a, true, fm.uuid(hsFilter.hostHardwareId));
      }
    } else {
      if hsFilter.hostId != Nil {
        out := out + t.and + HostIdClause(t, a, false, fm.uuid(hsFilter.hostId));
      }
      // Unreachable from the builder: a host name always brings the join.
      if hsFilter.hostName != "" {
        out := out + t.and + HostNameClause(t, a, false, hsFilter.hostName);
      }
      if hsFilter.hostHardwareId != Nil {
        out := out + t.and + HardwareUuidClause(t, a, false, fm.uuid(hsFilter.hostHardwareId));
      }
    }
  }

  /** The host state, upper-cased, and the status id. */
  method AppendStatusConditions(t: SqlTexts, options: string, a: string, hsFilter: HostStatusFilterCriteria, fm: Formats)
    returns (out: string)
    ensures out == AndIf(t, AndIf(t, options,
      Clause(hsFilter.hostStatus != "", HostStateClause(t, a, hsFilter.hostStatus))),
      Clause(hsFilter.id != Nil, StatusIdClause(t, a, fm.uuid(hsFilter.id))))
  {
    out := options;
    if hsFilter.hostStatus != "" {
      out := out + t.and + HostStateClause(t, a, hsFilter.hostStatus);
    }
    if hsFilter.id != Nil {
      out := out + t.and + StatusIdClause(t, a, fm.uuid(hsFilter.id));
    }
  }

  /** The date part of the builder: one clause for whichever of the two dates are set. */
  method AppendDateCondition(t: SqlTexts, options: string, a: string, from: Time, to: Time, fm: Formats)
    returns (out: string)
    ensures out == AndIf(t, options, Clause(!IsZero(from) || !IsZero(to), DateText(t, a, from, to, fm)))
  {
    out := options;
    if !IsZero(from) || !IsZero(to) {
      if !IsZero(from) && IsZero(to) {
        out := out + t.and + FromClause(t, a, fm.date(from));
      } else if IsZero(from) && !IsZero(to) {
        out := out + t.and + ToClause(t, a, fm.date(to));
      } else if !IsZero(from) && !IsZero(to) {
        out := out + t.and + FromToClause(t, a, fm.date(from), fm.date(to));
      }
    }
  }

  /**
   * The WHERE clause of the builder, clause by clause, under the alias `a` and with the host
   * table joined or not. The day count overwrites the from-date of the filter before the
   * date clause is built; the filter as it is afterwards is returned.
   */
  method BuildWhereClause(t: SqlTexts, hsFilter: HostStatusFilterCriteria, a: string, joined: bool,
                          now: Time, fm: Formats)
    returns (options: string, filterAfter: HostStatusFilterCriteria)
    requires a == Alias(t, hsFilter) && joined == (hsFilter.hostName != "")
    ensures filterAfter == EffectiveFilter(hsFilter, now)
    ensures options == WhereClause(t, filterAfter, fm)
  {
    options := BaseClause(t, a);
    options := AppendHostConditions(t, options, a, joined, hsFilter, fm);
    options := AppendStatusConditions(t, options, a, hsFilter, fm);
    ghost var beforeDates := options;
    filterAfter := hsFilter;
    if hsFilter.numberOfDays != 0 {
      filterAfter := filterAfter.(fromDate := AddDays(now, -hsFilter.numberOfDays));
    }
    options := AppendDateCondition(t, options, a, filterAfter.fromDate, filterAfter.toDate, fm);
    WhereClauseSteps(t, hsFilter, a, joined, now, fm, beforeDates);
  }

  /**
   * `buildHostStatusSearchQuery`: the host join when a host name is given, the WHERE clause
   * built clause by clause, and the final query, which keeps only each host's latest
   * record when asked to. The filter is passed by pointer in the source and its from-date
   * is overwritten when a day count is given; the filter as the caller then sees it is
   * returned.
   */
  method BuildHostStatusSearchQuery(t: SqlTexts, hsFilter: HostStatusFilterCriteria, now: Time, fm: Formats)
    returns (query: RawQuery, filterAfter: HostStatusFilterCriteria)
    requires WellFormed(t)
    ensures filterAfter == EffectiveFilter(hsFilter, now)
    ensures query == RawQuery(QueryText(t, filterAfter, fm), hsFilter.limit)
  {
    var tableJoinString := "";
    var auditLogAbbrv := t.auditLog;
    if hsFilter.latestPerHost {
      auditLogAbbrv := t.auditLogLatest;
    }
    var formattedQuery := t.selectAll;
    if hsFilter.hostName != "" {
      tableJoinString := HostJoin(t, auditLogAbbrv);
      assert tableJoinString[0] == t.innerJoin[0];
    }
    var options;
    options, filterAfter := BuildWhereClause(t, hsFilter, auditLogAbbrv, tableJoinString != "", now, fm);
    if tableJoinString != "" {
      options := tableJoinString + t.space + options;
    }
    if hsFilter.latestPerHost {
      formattedQuery := formattedQuery + t.space + MaxDateJoin(t, options) + t.orderByCreated;
    } else {
      formattedQuery := formattedQuery + t.space + options;
    }
    query := RawQuery(formattedQuery, hsFilter.limit);
  }

  // ---------------------------------------------------------------------------
  // As written: the latest-per-host sub-query lacks a space before FROM

  /** The sub-query text as the source concatenates it: no space between the alias and FROM. */
  function MaxDateJoinAsWritten(t: SqlTexts, options: string): (r: string)
    ensures var n := |t.maxDateSelect + t.maxDate|;
      r == MaxDateJoin(t, options)[..n] + MaxDateJoin(t, options)[n + |t.space|..]
  {
    var head, tail := t.maxDateSelect + t.maxDate, t.fromKeyword + t.latestAuditLog + options + t.maxDateTail;
    assert MaxDateJoin(t, options) == head + t.space + tail;
    assert (head + t.space + tail)[..|head|] == head;
    assert (head + t.space + tail)[|head| + |t.space|..] == tail;
    assert head + tail == t.maxDateSelect + t.maxDate + t.fromKeyword + t.latestAuditLog + options + t.maxDateTail;
    t.maxDateSelect + t.maxDate + t.fromKeyword + t.latestAuditLog + options + t.maxDateTail
  }

  /**
   * As written, the sub-query runs the alias `max_date` into the keyword `FROM`; the
   * corrected text keeps them apart, and is otherwise the same.
   */
  lemma MaxDateMissingSpace(t: SqlTexts, options: string)
    ensures Contains(MaxDateJoinAsWritten(t, options), t.maxDate + t.fromKeyword)
    ensures Contains(MaxDateJoin(t, options), t.maxDate + t.space + t.fromKeyword)
    ensures |MaxDateJoin(t, options)| == |MaxDateJoinAsWritten(t, options)| + |t.space|
  {
    var pre, post := t.maxDateSelect, t.latestAuditLog + options + t.maxDateTail;
    var asWritten, corrected := t.maxDate + t.fromKeyword, t.maxDate + t.space + t.fromKeyword;
    assert MaxDateJoinAsWritten(t, options) == pre + asWritten + post by {
      Regroup(pre, asWritten, t.latestAuditLog, options, t.maxDateTail);
    }
    assert MaxDateJoin(t, options) == pre + corrected + post by {
      Regroup(pre, corrected, t.latestAuditLog, options, t.maxDateTail);
    }
    ContainsPiece(pre, asWritten, post);
    ContainsPiece(pre, corrected, post);
  }

  /** Concatenation regrouped: the last three pieces read as one. */
  lemma Regroup(a: string, b: string, c: string, d: string, e: string)
    ensures a + b + c + d + e == a + b + (c + d + e)
  {
  }

  /** A latest-per-host search with a date reaches the builder, and the sub-query is in its text. */
  lemma MaxDateReachable(t: SqlTexts, f: HostStatusFilterCriteria, now: Time, fm: Formats)
    requires f.latestPerHost && !IsZero(f.fromDate) && f.numberOfDays == 0
    ensures !LatestTableBranch(f)
    ensures QueryText(t, EffectiveFilter(f, now), fm)
      == t.selectAll + t.space + MaxDateJoin(t, Options(t, f, fm)) + t.orderByCreated
  {
  }

  // ---------------------------------------------------------------------------
  // Search

  datatype AuditColumnData = AuditColumnData(name: string, value: Option<string>)

  datatype AuditTableData = AuditTableData(columns: seq<AuditColumnData>)

  datatype AuditLogEntry = AuditLogEntry(
    id: Uuid,
    entityId: Uuid,
    entityType: string,
    createdAt: Time,
    action: string,
    data: AuditTableData)

  /** The JSON documents of a status are kept as their text. */
  datatype HostStatus = HostStatus(
    id: Uuid,
    hostId: Uuid,
    hostStatusInformation: string,
    hostManifest: string,
    created: Time)

  /** A scanned row, or the error its scan gave. */
  type Row<T> = Result<T, string>

  const RetrieveFailed: string := "postgres/hoststatus_store:Search() failed to retrieve records from db"

  const ScanFailed: string := "postgres/hoststatus_store:Search() failed to scan record"

  const ConvertFailed: string := "postgres/hoststatus_store:Search() convert auditlog entry into HostStatus"

  /** `Search` reads the latest-status table when no date is given and only the latest rows are wanted. */
  predicate LatestTableBranch(f: HostStatusFilterCriteria) {
    IsZero(f.fromDate) && IsZero(f.toDate) && f.latestPerHost
  }

  /** An audit record with empty data (or no columns) is not a host status and is passed over. */
  predicate Skipped(e: AuditLogEntry) {
    |e.data.columns| == 0
  }

  /** The latest-table rows in order, or the first scan error. */
  function ScanStatuses(rows: seq<Row<HostStatus>>): (r: Result<seq<HostStatus>, string>)
    ensures r.Ok? <==> forall i :: 0 <= i < |rows| ==> rows[i].Ok?
    ensures r.Ok? ==> |r.value| == |rows| && forall i :: 0 <= i < |rows| ==> r.value[i] == rows[i].value
    ensures r.Err? ==> HasPrefix(r.error, ScanFailed)
  {
    if rows == [] then Ok([])
    else match ScanStatuses(rows[..|rows| - 1])
      case Err(e) => Err(e)
      case Ok(done) =>
        match rows[|rows| - 1]
        case Err(e) => Err(Wrap(e, ScanFailed))
        case Ok(hs) => Ok(done + [hs])
  }

  /** The audit rows converted in order, skipping those without columns, or the first error. */
  function ScanAuditLog(rows: seq<Row<AuditLogEntry>>, convert: AuditLogEntry -> Result<HostStatus, string>)
    : (r: Result<seq<HostStatus>, string>)
    ensures r.Ok? ==> (forall i :: 0 <= i < |rows| ==> rows[i].Ok?) && |r.value| <= |rows|
    ensures r.Err? ==> HasPrefix(r.error, ScanFailed) || HasPrefix(r.error, ConvertFailed)
  {
    if rows == [] then Ok([])
    else match ScanAuditLog(rows[..|rows| - 1], convert)
      case Err(e) => Err(e)
      case Ok(done) =>
        match rows[|rows| - 1]
        case Err(e) => Err(Wrap(e, ScanFailed))
        case Ok(entry) =>
          if Skipped(entry) then Ok(done)
          else match convert(entry)
            case Err(e) => Err(Wrap(e, ConvertFailed))
            case Ok(hs) => Ok(done + [hs])
  }

  /** The first scan error ends the scan: later rows do not change it. */
  lemma {:induction false} ScanStatusesStops(rows: seq<Row<HostStatus>>, k: nat)
    requires k <= |rows| && ScanStatuses(rows[..k]).Err?
    ensures ScanStatuses(rows) == ScanStatuses(rows[..k])
    decreases |rows|
  {
    if k < |rows| {
      var n := |rows| - 1;
      assert rows[..n][..k] == rows[..k];
      ScanStatusesStops(rows[..n], k);
    } else {
      assert rows[..k] == rows;
    }
  }

  /** The first scan or conversion error ends the scan: later rows do not change it. */
  lemma {:induction false} ScanAuditLogStops(rows: seq<Row<AuditLogEntry>>, convert: AuditLogEntry -> Result<HostStatus, string>, k: nat)
    requires k <= |rows| && ScanAuditLog(rows[..k], convert).Err?
    ensures ScanAuditLog(rows, convert) == ScanAuditLog(rows[..k], convert)
    decreases |rows|
  {
    if k < |rows| {
      var n := |rows| - 1;
      assert rows[..n][..k] == rows[..k];
      ScanAuditLogStops(rows[..n], convert, k);
    } else {
      assert rows[..k] == rows;
    }
  }

  /** The audit entries that are not passed over. */
  function Kept(rows: seq<Row<AuditLogEntry>>): seq<AuditLogEntry> {
    if rows == [] then [] else
      Kept(rows[..|rows| - 1])
      + (if rows[|rows| - 1].Ok? && !Skipped(rows[|rows| - 1].value) then [rows[|rows| - 1].value] else [])
  }

  /**
   * When every row scans and every kept entry converts, the result has one status per kept
   * entry, in row order.
   */
  lemma {:induction false} ScanAuditLogKeepsOrder(rows: seq<Row<AuditLogEntry>>, convert: AuditLogEntry -> Result<HostStatus, string>)
    requires forall i :: 0 <= i < |rows| ==> rows[i].Ok?
    requires forall e :: e in Kept(rows) ==> convert(e).Ok?
    ensures ScanAuditLog(rows, convert).Ok?
    ensures |ScanAuditLog(rows, convert).value| == |Kept(rows)|
    ensures forall i :: 0 <= i < |Kept(rows)| ==> ScanAuditLog(rows, convert).value[i] == convert(Kept(rows)[i]).value
  {
    if rows != [] {
      var n := |rows| - 1;
      assert forall e :: e in Kept(rows[..n]) ==> e in Kept(rows);
      ScanAuditLogKeepsOrder(rows[..n], convert);
      if !Skipped(rows[n].value) {
        assert rows[n].value in Kept(rows);
      }
    }
  }

  /** Rows without columns never change the outcome. */
  lemma SkippedRowIgnored(rows: seq<Row<AuditLogEntry>>, e: AuditLogEntry, convert: AuditLogEntry -> Result<HostStatus, string>)
    requires Skipped(e)
    ensures ScanAuditLog(rows + [Ok(e)], convert) == ScanAuditLog(rows, convert)
  {
    assert (rows + [Ok(e)])[..|rows|] == rows;
  }

  /**
   * `Search`. The database is given as its answers: `latestRows` for the latest-status
   * query built from the filter, `auditRows` for the raw audit-log query; `convert` is the
   * conversion of an audit entry into a host status.
   */
  function SearchSpec(
    f: HostStatusFilterCriteria, now: Time, formatDate: Time -> string,
    latestRows: HostStatusFilterCriteria -> Result<seq<Row<HostStatus>>, string>,
    auditRows: RawQuery -> Result<seq<Row<AuditLogEntry>>, string>,
    convert: AuditLogEntry -> Result<HostStatus, string>): (r: Result<seq<HostStatus>, string>)
    ensures r.Err? ==> HasPrefix(r.error, RetrieveFailed) || HasPrefix(r.error, ScanFailed) || HasPrefix(r.error, ConvertFailed)
    ensures LatestTableBranch(f) && r.Ok? ==> latestRows(f).Ok? && |r.value| == |latestRows(f).value|
    ensures !LatestTableBranch(f) && r.Ok? ==>
      var rows := auditRows(RawQuery(QueryText(Sql, EffectiveFilter(f, now), Formats(Format, formatDate)), f.limit));
      rows.Ok? && |r.value| <= |rows.value|
  {
    if LatestTableBranch(f) then
      match latestRows(f)
      case Err(e) => WrapPrefix(e, RetrieveFailed); Err(Wrap(e, RetrieveFailed))
      case Ok(rows) => ScanStatuses(rows)
    else
      var g := EffectiveFilter(f, now);
      match auditRows(RawQuery(QueryText(Sql, g, Formats(Format, formatDate)), f.limit))
      case Err(e) => WrapPrefix(e, RetrieveFailed); Err(Wrap(e, RetrieveFailed))
      case Ok(rows) => ScanAuditLog(rows, convert)
  }

  /** Exactly one of the two queries is consulted, chosen by the branch predicate alone. */
  lemma SearchBranch(
    f: HostStatusFilterCriteria, now: Time, formatDate: Time -> string,
    latestRows: HostStatusFilterCriteria -> Result<seq<Row<HostStatus>>, string>,
    latestRows': HostStatusFilterCriteria -> Result<seq<Row<HostStatus>>, string>,
    auditRows: RawQuery -> Result<seq<Row<AuditLogEntry>>, string>,
    auditRows': RawQuery -> Result<seq<Row<AuditLogEntry>>, string>,
    convert: AuditLogEntry -> Result<HostStatus, string>)
    ensures LatestTableBranch(f) ==>
      SearchSpec(f, now, formatDate, latestRows, auditRows, convert)
      == SearchSpec(f, now, formatDate, latestRows, auditRows', convert)
    ensures !LatestTableBranch(f) ==>
      SearchSpec(f, now, formatDate, latestRows, auditRows, convert)
      == SearchSpec(f, now, formatDate, latestRows', auditRows, convert)
  {
  }

  /** The scan of the latest-status rows: each row in turn, stopping at the first scan error. */
  method ScanStatusRows(rows: seq<Row<HostStatus>>) returns (r: Result<seq<HostStatus>, string>)
    ensures r == ScanStatuses(rows)
  {
    var hostStatuses := [];
    var i := 0;
    while i < |rows|
      invariant 0 <= i <= |rows|
      invariant ScanStatuses(rows[..i]) == Ok(hostStatuses)
    {
      assert rows[..i + 1][..i] == rows[..i];
      var row := rows[i];
      if row.Err? {
        ScanStatusesStops(rows, i + 1);
        return Err(Wrap(row.error, ScanFailed));
      }
      hostStatuses := hostStatuses + [row.value];
      i := i + 1;
    }
    assert rows[..i] == rows;
    return Ok(hostStatuses);
  }

  /**
   * The scan of the audit rows: each row in turn, passing over those without columns and
   * converting the others, stopping at the first scan or conversion error.
   */
  method ScanAuditRows(rows: seq<Row<AuditLogEntry>>, convert: AuditLogEntry -> Result<HostStatus, string>)
    returns (r: Result<seq<HostStatus>, string>)
    ensures r == ScanAuditLog(rows, convert)
  {
    var hostStatuses := [];
    var i := 0;
    while i < |rows|
      invariant 0 <= i <= |rows|
      invariant ScanAuditLog(rows[..i], convert) == Ok(hostStatuses)
    {
      assert rows[..i + 1][..i] == rows[..i];
      var row := rows[i];
      if row.Err? {
        ScanAuditLogStops(rows, convert, i + 1);
        return Err(Wrap(row.error, ScanFailed));
      }
      if !Skipped(row.value) {
        var hs := convert(row.value);
        if hs.Err? {
          ScanAuditLogStops(rows, convert, i + 1);
          return Err(Wrap(hs.error, ConvertFailed));
        }
        hostStatuses := hostStatuses + [hs.value];
      }
      i := i + 1;
    }
    assert rows[..i] == rows;
    return Ok(hostStatuses);
  }

  /**
   * `Search`. The filter is passed by pointer and the audit-log branch's query builder
   * overwrites its from-date when a day count is given; the filter as the caller then sees
   * it is returned beside the result.
   */
  method Search(
    hsFilter: HostStatusFilterCriteria, now: Time, formatDate: Time -> string,
    latestRows: HostStatusFilterCriteria -> Result<seq<Row<HostStatus>>, string>,
    auditRows: RawQuery -> Result<seq<Row<AuditLogEntry>>, string>,
    convert: AuditLogEntry -> Result<HostStatus, string>)
    returns (r: Result<seq<HostStatus>, string>, filterAfter: HostStatusFilterCriteria)
    ensures r == SearchSpec(hsFilter, now, formatDate, latestRows, auditRows, convert)
    ensures filterAfter == if LatestTableBranch(hsFilter) then hsFilter else EffectiveFilter(hsFilter, now)
  {
    filterAfter := hsFilter;
    if LatestTableBranch(hsFilter) {
      var rows := latestRows(hsFilter);
      if rows.Err? {
        return Err(Wrap(rows.error, RetrieveFailed)), filterAfter;
      }
      r := ScanStatusRows(rows.value);
    } else {
      SqlWellFormed();
      var tx;
      tx, filterAfter := BuildHostStatusSearchQuery(Sql, hsFilter, now, Formats(Format, formatDate));
      var rows := auditRows(tx);
      if rows.Err? {
        return Err(Wrap(rows.error, RetrieveFailed)), filterAfter;
      }
      r := ScanAuditRows(rows.value, convert);
    }
  }

  // ---------------------------------------------------------------------------
  // Update

  /** The columns `Update` writes: the creation time is not among them. */
  datatype HostStatusRecord = HostStatusRecord(id: Uuid, hostId: Uuid, status: string, hostReport: string)

  /** What the database reports for an update: its error, if any, and the rows it changed. */
  datatype UpdateResult = UpdateResult(error: Option<string>, rowsAffected: int)

  const InvalidId: string := "postgres/hoststatus_store:Update() - ID is invalid"

  /** `Update`: a Nil id is refused; otherwise the update must succeed on exactly one row. */
  function Update(hs: HostStatus, db: HostStatusRecord -> UpdateResult): (err: Option<string>)
    ensures err.None? <==>
      hs.id != Nil && db(HostStatusRecord(hs.id, hs.hostId, hs.hostStatusInformation, hs.hostManifest)) == UpdateResult(None, 1)
    ensures hs.id == Nil ==> err == Some(InvalidId)
  {
    if hs.id == Nil then Some(InvalidId)
    else
      var res := db(HostStatusRecord(hs.id, hs.hostId, hs.hostStatusInformation, hs.hostManifest));
      if res.error.Some? then
        Some(Wrap(res.error.value, "postgres/hoststatus_store:Update() failed to update HostStatus  " + Format(hs.id)))
      else if res.rowsAffected != 1 then
        Some("postgres/hoststatus_store:Update() - no rows affected - Record not found = id :  " + Format(hs.id))
      else None
  }

  /** A Nil id is refused before the database is consulted: the answer does not depend on it. */
  lemma UpdateNilIdIgnoresDb(hs: HostStatus, db: HostStatusRecord -> UpdateResult, db': HostStatusRecord -> UpdateResult)
    requires hs.id == Nil
    ensures Update(hs, db) == Update(hs, db')
  {
  }
}
