/** One synthetic session: its lifecycle transitions and its two snapshot encodings,
    a BigQuery row map and an ordered BigQuery STRUCT. */
module SessionModel {
  import opened Common
  import opened Constants
  import opened ConversionUtil
  import opened BigQueryStruct

  datatype Status = NEW | ABANDONED | LOGGED_IN | LOGGED_OUT {
    /** `Enum.name()`. */
    function Name(): string {
      match this
      case NEW => "NEW"
      case ABANDONED => "ABANDONED"
      case LOGGED_IN => "LOGGED_IN"
      case LOGGED_OUT => "LOGGED_OUT"
    }
  }

  /** `Enum.valueOf(name)`, with None where Java throws. */
  function ParseStatus(name: string): (r: Option<Status>)
    ensures r.Some? ==> r.value.Name() == name
  {
    if name == "NEW" then Some(NEW)
    else if name == "ABANDONED" then Some(ABANDONED)
    else if name == "LOGGED_IN" then Some(LOGGED_IN)
    else if name == "LOGGED_OUT" then Some(LOGGED_OUT)
    else None
  }

  lemma StatusNameRoundTrip(s: Status)
    ensures ParseStatus(s.Name()) == Some(s)
  {
  }

  /** The field values of a session at one moment. */
  datatype SessionData = SessionData(
    sessionId: string,
    status: Status,
    customerKey: Option<string>,
    start: Instant,
    end: Option<Instant>)

  /** What a fresh session holds: the id and clock reading are supplied by the caller. */
  function NewSession(id: string, now: Instant): SessionData {
    SessionData(id, NEW, None, now, None)
  }

  /** What `loggedIn(k)` does to a session's fields. */
  function AfterLoggedIn(d: SessionData, customerKey: string): SessionData {
    d.(status := LOGGED_IN, customerKey := Some(customerKey))
  }

  /** What `abandon()` does to a session's fields. */
  function AfterAbandon(d: SessionData, now: Instant): SessionData {
    d.(status := ABANDONED, end := Some(now))
  }

  /** What `logout()` does to a session's fields. */
  function AfterLogout(d: SessionData, now: Instant): SessionData {
    d.(status := LOGGED_OUT, end := Some(now))
  }

  predicate IsTerminal(s: Status) {
    s == LOGGED_OUT || s == ABANDONED
  }

  /** The invariant every session reachable through the simulator keeps: an end time
      exactly in the terminal states, no customer key before login, and a key from login on. */
  predicate Consistent(d: SessionData) {
    (d.end.Some? <==> IsTerminal(d.status)) &&
    (d.status == NEW ==> d.customerKey.None?) &&
    (d.status == LOGGED_IN || d.status == LOGGED_OUT ==> d.customerKey.Some?)
  }

  // ----- the row map -----

  /** A value of a BigQuery row map: a string, an integer, or null. */
  datatype RowValue = Null | Text(text: string) | Integer(number: int)

  type Row = map<string, RowValue>

  function TextOrNull(s: Option<string>): RowValue {
    match s
    case None => Null
    case Some(t) => Text(t)
  }

  /** `toBigQueryRow()` over a snapshot of the session's fields. */
  function ToBigQueryRow(d: SessionData): Row {
    map[
      SESSION_ID_COLUMN := Text(d.sessionId),
      STATUS_COLUMN := Text(d.status.Name()),
      CUSTOMER_KEY_COLUMN := TextOrNull(d.customerKey),
      START_COLUMN := TextOrNull(ConvertToTimestamp(Some(d.start))),
      END_COLUMN := TextOrNull(ConvertToTimestamp(d.end))]
  }

  /** The row holds exactly the five session columns; its status decodes back to the
      session's status; the customer key and end columns are null exactly when unset. */
  lemma RowShape(d: SessionData)
    ensures var row := ToBigQueryRow(d);
      row.Keys == {SESSION_ID_COLUMN, STATUS_COLUMN, CUSTOMER_KEY_COLUMN, START_COLUMN, END_COLUMN} &&
      row[SESSION_ID_COLUMN] == Text(d.sessionId) &&
      row[STATUS_COLUMN].Text? && ParseStatus(row[STATUS_COLUMN].text) == Some(d.status) &&
      (row[CUSTOMER_KEY_COLUMN] == Null <==> d.customerKey.None?) &&
      (d.customerKey.Some? ==> row[CUSTOMER_KEY_COLUMN] == Text(d.customerKey.value)) &&
      row[START_COLUMN].Text? &&
      (row[END_COLUMN] == Null <==> d.end.None?)
  {
    StatusNameRoundTrip(d.status);
  }

  // ----- the STRUCT -----

  /** The fields `toBigQueryStruct()` leaves in the struct, in the table's column order;
      a null customer key or end time leaves its field out. */
  function StructFields(d: SessionData): Fields {
    [(SESSION_ID_COLUMN, StringLiteral(Some(d.sessionId))), (STATUS_COLUMN, StringLiteral(Some(d.status.Name())))]
    + (if d.customerKey.Some? then [(CUSTOMER_KEY_COLUMN, StringLiteral(d.customerKey))] else [])
    + [(START_COLUMN, TimestampLiteral(d.start))]
    + (if d.end.Some? then [(END_COLUMN, TimestampLiteral(d.end.value))] else [])
  }

  /** Chaining the five adds in table order onto an empty struct yields StructFields: no
      column name repeats, so each present value is appended at the end. */
  lemma StructBuiltByAdds(d: SessionData)
    ensures WithTimestamp(WithTimestamp(WithString(WithString(WithString([],
      SESSION_ID_COLUMN, Some(d.sessionId)), STATUS_COLUMN, Some(d.status.Name())),
      CUSTOMER_KEY_COLUMN, d.customerKey), START_COLUMN, Some(d.start)), END_COLUMN, d.end)
      == StructFields(d)
  {
    var f1 := WithString([], SESSION_ID_COLUMN, Some(d.sessionId));
    PutNew([], SESSION_ID_COLUMN, StringLiteral(Some(d.sessionId)));
    var f2 := WithString(f1, STATUS_COLUMN, Some(d.status.Name()));
    PutNew(f1, STATUS_COLUMN, StringLiteral(Some(d.status.Name())));
    var f3 := WithString(f2, CUSTOMER_KEY_COLUMN, d.customerKey);
    if d.customerKey.Some? {
      PutNew(f2, CUSTOMER_KEY_COLUMN, StringLiteral(d.customerKey));
    }
    var f4 := WithTimestamp(f3, START_COLUMN, Some(d.start));
    PutNew(f3, START_COLUMN, TimestampLiteral(d.start));
    if d.end.Some? {
      PutNew(f4, END_COLUMN, TimestampLiteral(d.end.value));
    }
  }

  /** How the STRUCT renders one non-null row value of a column. */
  function ColumnLiteral(column: string, value: RowValue): string
    requires value.Text?
  {
    if column == START_COLUMN || column == END_COLUMN then "TIMESTAMP('" + value.text + "')"
    else StringLiteral(Some(value.text))
  }

  /** The two encodings agree: the struct's fields are the row's non-null columns in
      table order, each holding the SQL literal of the row's value. */
  lemma StructAgreesWithRow(d: SessionData)
    ensures var row, fields := ToBigQueryRow(d), StructFields(d);
      Firsts(fields) == [SESSION_ID_COLUMN, STATUS_COLUMN]
        + (if row[CUSTOMER_KEY_COLUMN] != Null then [CUSTOMER_KEY_COLUMN] else [])
        + [START_COLUMN]
        + (if row[END_COLUMN] != Null then [END_COLUMN] else []) &&
      forall i :: 0 <= i < |fields| ==>
        fields[i].0 in row && row[fields[i].0].Text? && fields[i].1 == ColumnLiteral(fields[i].0, row[fields[i].0])
  {
    var row, fields := ToBigQueryRow(d), StructFields(d);
    var expected := [SESSION_ID_COLUMN, STATUS_COLUMN]
        + (if row[CUSTOMER_KEY_COLUMN] != Null then [CUSTOMER_KEY_COLUMN] else [])
        + [START_COLUMN]
        + (if row[END_COLUMN] != Null then [END_COLUMN] else []);
    assert |Firsts(fields)| == |expected|;
    forall i | 0 <= i < |fields|
      ensures Firsts(fields)[i] == expected[i]
      ensures fields[i].0 in row && row[fields[i].0].Text? && fields[i].1 == ColumnLiteral(fields[i].0, row[fields[i].0])
    {
    }
  }

  /** A mutable session. The id and start are final; status, customer key and end change
      in place. The UUID and the clock readings are supplied by the caller. */
  class Session {
    const sessionId: string
    var status: Status
    var customerKey: Option<string>
    const start: Instant
    var end: Option<Instant>

    function Data(): SessionData
      reads this
    {
      SessionData(sessionId, status, customerKey, start, end)
    }

    /** A new session: status NEW, no customer key, no end; id and start as supplied. */
    constructor (id: string, now: Instant)
      ensures Data() == NewSession(id, now)
    {
      sessionId := id;
      status := NEW;
      customerKey := None;
      start := now;
      end := None;
    }

    /** From any status: LOGGED_IN with the given customer key; the end is untouched. */
    method LoggedIn(key: string)
      modifies this
      ensures Data() == AfterLoggedIn(old(Data()), key)
      ensures status == LOGGED_IN && customerKey == Some(key) && end == old(end)
    {
      status := LOGGED_IN;
      customerKey := Some(key);
    }

    /** From any status: ABANDONED, ended now; the customer key is untouched. */
    method Abandon(now: Instant)
      modifies this
      ensures Data() == AfterAbandon(old(Data()), now)
      ensures status == ABANDONED && end == Some(now) && customerKey == old(customerKey)
    {
      status := ABANDONED;
      end := Some(now);
    }

    /** From any status: LOGGED_OUT, ended now; the customer key is untouched. */
    method Logout(now: Instant)
      modifies this
      ensures Data() == AfterLogout(old(Data()), now)
      ensures status == LOGGED_OUT && end == Some(now) && customerKey == old(customerKey)
    {
      status := LOGGED_OUT;
      end := Some(now);
    }

    /** Builds a fresh struct by chaining the five adds in table order. */
    method ToBigQueryStruct() returns (result: Struct)
      ensures fresh(result) && result.Valid()
      ensures result.fields == StructFields(Data())
    {
      result := new Struct();
      var r := result.AddString(SESSION_ID_COLUMN, Some(sessionId));
      r := r.AddString(STATUS_COLUMN, Some(status.Name()));
      r := r.AddString(CUSTOMER_KEY_COLUMN, customerKey);
      r := r.AddTimestamp(START_COLUMN, Some(start));
      r := r.AddTimestamp(END_COLUMN, end);
      StructBuiltByAdds(Data());
    }
  }
}
