/**
 * The decisions the command-line tool (chargeamps/cli.py) takes between
 * fetching records and sending or printing them: which charge point to use,
 * which connector statuses and which sessions to show and in what order, how
 * a fetched settings record is changed from the optional arguments, and the
 * remote-start authorisation it builds. Fetching, sending and printing are
 * left to the caller; the fetched records are parameters.
 */
module Cli {
  import opened Wrappers
  import opened Models

  // ---------------------------------------------------------------------------
  // Choosing the charge point

  /**
   * The charge point a command acts on: the one given, else the first one the
   * account owns. `None` stands for the `IndexError` raised when nothing was
   * given and the account owns no charge point.
   */
  function ChargePointId(given: Option<string>, owned: seq<ChargePoint>): (r: Option<string>)
    ensures TruthyText(given) ==> r == given
    ensures !TruthyText(given) ==> (r.Some? <==> |owned| > 0)
    ensures !TruthyText(given) && r.Some? ==> r.value == owned[0].id
  {
    if TruthyText(given) then given
    else if |owned| > 0 then Some(owned[0].id)
    else None
  }

  // ---------------------------------------------------------------------------
  // The status command

  /** What the status command prints: the statuses of one connector, or the whole status. */
  datatype StatusReport = ConnectorStatuses(shown: seq<ChargePointConnectorStatus>) | WholeStatus(status: ChargePointStatus)

  /** The statuses of connector `connectorId`, in their order. */
  function StatusesOf(statuses: seq<ChargePointConnectorStatus>, connectorId: int): seq<ChargePointConnectorStatus> {
    if statuses == [] then []
    else
      var last := statuses[|statuses| - 1];
      StatusesOf(statuses[..|statuses| - 1], connectorId) + (if last.connectorId == connectorId then [last] else [])
  }

  /** Exactly the statuses of the connector are kept, each as often as it occurs. */
  lemma {:induction false} StatusesOfCount(statuses: seq<ChargePointConnectorStatus>, connectorId: int,
                                           x: ChargePointConnectorStatus)
    ensures multiset(StatusesOf(statuses, connectorId))[x]
            == if x.connectorId == connectorId then multiset(statuses)[x] else 0
  {
    if statuses != [] {
      var init := statuses[..|statuses| - 1];
      StatusesOfCount(init, connectorId, x);
      assert statuses == init + [statuses[|statuses| - 1]];
    }
  }

  /**
   * The status command: with a truthy connector id, the statuses of that
   * connector in their order; otherwise (no id, or 0) the whole status.
   */
  method StatusReportOf(status: ChargePointStatus, connectorId: Option<int>) returns (report: StatusReport)
    ensures !TruthyInt(connectorId) ==> report == WholeStatus(status)
    ensures TruthyInt(connectorId) ==> report == ConnectorStatuses(StatusesOf(status.connectorStatuses, connectorId.value))
  {
    if !TruthyInt(connectorId) {
      return WholeStatus(status);
    }
    var statuses := status.connectorStatuses;
    var shown: seq<ChargePointConnectorStatus> := [];
    for i := 0 to |statuses|
      invariant shown == StatusesOf(statuses[..i], connectorId.value)
    {
      assert statuses[..i + 1][..i] == statuses[..i];
      if statuses[i].connectorId == connectorId.value {
        shown := shown + [statuses[i]];
      }
    }
    assert statuses[..|statuses|] == statuses;
    return ConnectorStatuses(shown);
  }

  // ---------------------------------------------------------------------------
  // The sessions command

  /** A session is listed when no connector was asked for, or when it is on that connector. */
  predicate OnConnector(connectorId: Option<int>, s: ChargingSession) {
    connectorId.None? || connectorId.value == s.connectorId
  }

  /** The sessions listed for `connectorId`, in the order fetched. */
  function SessionsOn(sessions: seq<ChargingSession>, connectorId: Option<int>): seq<ChargingSession> {
    if sessions == [] then []
    else
      var last := sessions[|sessions| - 1];
      SessionsOn(sessions[..|sessions| - 1], connectorId) + (if OnConnector(connectorId, last) then [last] else [])
  }

  lemma {:induction false} SessionsOnCount(sessions: seq<ChargingSession>, connectorId: Option<int>, x: ChargingSession)
    ensures multiset(SessionsOn(sessions, connectorId))[x]
            == if OnConnector(connectorId, x) then multiset(sessions)[x] else 0
  {
    if sessions != [] {
      var init := sessions[..|sessions| - 1];
      SessionsOnCount(init, connectorId, x);
      assert sessions == init + [sessions[|sessions| - 1]];
    }
  }

  /** Python's `a <= b` on strings: lexicographic by code point. */
  predicate TextLe(a: string, b: string)
    decreases |a|
  {
    a == [] || (b != [] && (a[0] < b[0] || (a[0] == b[0] && TextLe(a[1..], b[1..]))))
  }

  lemma {:induction false} TextLeTotal(a: string, b: string)
    ensures TextLe(a, b) || TextLe(b, a)
    decreases |a|
  {
    if a != [] && b != [] && a[0] == b[0] {
      TextLeTotal(a[1..], b[1..]);
    }
  }

  lemma {:induction false} TextLeTransitive(a: string, b: string, c: string)
    requires TextLe(a, b) && TextLe(b, c)
    ensures TextLe(a, c)
    decreases |a|
  {
    if a != [] && a[0] == b[0] && b[0] == c[0] {
      TextLeTransitive(a[1..], b[1..], c[1..]);
    }
  }

  predicate SortedById(s: seq<ChargingSession>) {
    forall i, j :: 0 <= i < j < |s| ==> TextLe(s[i].id, s[j].id)
  }

  /** Inserts `x` after every session whose id is at most its own (so equal ids keep their order). */
  function InsertById(x: ChargingSession, s: seq<ChargingSession>): seq<ChargingSession> {
    if s == [] then [x]
    else if !TextLe(s[0].id, x.id) then [x] + s
    else [s[0]] + InsertById(x, s[1..])
  }

  /** `sorted(..., key=lambda i: i["id"])`: a stable sort by id. */
  function SortById(s: seq<ChargingSession>): seq<ChargingSession> {
    if s == [] then []
    else InsertById(s[|s| - 1], SortById(s[..|s| - 1]))
  }

  lemma {:induction false} InsertByIdCorrect(x: ChargingSession, s: seq<ChargingSession>)
    requires SortedById(s)
    ensures SortedById(InsertById(x, s))
    ensures multiset(InsertById(x, s)) == multiset(s) + multiset{x}
  {
    if s == [] {
    } else if !TextLe(s[0].id, x.id) {
      TextLeTotal(s[0].id, x.id);
      forall j | 0 <= j < |s|
        ensures TextLe(x.id, s[j].id)
      {
        if j > 0 {
          TextLeTransitive(x.id, s[0].id, s[j].id);
        }
      }
      assert [x] + s == InsertById(x, s);
    } else {
      var rest := s[1..];
      InsertByIdCorrect(x, rest);
      var t := InsertById(x, rest);
      forall k | 0 <= k < |t|
        ensures TextLe(s[0].id, t[k].id)
      {
        assert t[k] in multiset(t);
        if t[k] != x {
          assert t[k] in multiset(rest);
          var m :| 0 <= m < |rest| && rest[m] == t[k];
          assert s[m + 1] == t[k];
        }
      }
      assert s == [s[0]] + rest;
    }
  }

  lemma {:induction false} SortByIdCorrect(s: seq<ChargingSession>)
    ensures SortedById(SortById(s))
    ensures multiset(SortById(s)) == multiset(s)
    decreases |s|
  {
    if s != [] {
      var init := s[..|s| - 1];
      SortByIdCorrect(init);
      InsertByIdCorrect(s[|s| - 1], SortById(init));
      assert s == init + [s[|s| - 1]];
    }
  }

  /**
   * The session listing: exactly the sessions on the requested connector (all
   * of them when none is requested), each as often as fetched, ordered by id.
   */
  method ListSessions(sessions: seq<ChargingSession>, connectorId: Option<int>) returns (listed: seq<ChargingSession>)
    ensures listed == SortById(SessionsOn(sessions, connectorId))
    ensures SortedById(listed)
    ensures forall x :: multiset(listed)[x] == if OnConnector(connectorId, x) then multiset(sessions)[x] else 0
  {
    var selected: seq<ChargingSession> := [];
    for i := 0 to |sessions|
      invariant selected == SessionsOn(sessions[..i], connectorId)
    {
      assert sessions[..i + 1][..i] == sessions[..i];
      if connectorId.None? || connectorId.value == sessions[i].connectorId {
        selected := selected + [sessions[i]];
      }
    }
    assert sessions[..|sessions|] == sessions;
    listed := SortById(selected);
    SortByIdCorrect(selected);
    forall x
      ensures multiset(listed)[x] == if OnConnector(connectorId, x) then multiset(sessions)[x] else 0
    {
      SessionsOnCount(sessions, connectorId, x);
    }
  }

  // ---------------------------------------------------------------------------
  // The settings commands

  function UpperAscii(c: char): char {
    if 'a' <= c <= 'z' then (c as int - 32) as char else c
  }

  function LowerAscii(c: char): char {
    if 'A' <= c <= 'Z' then (c as int + 32) as char else c
  }

  /** Python's `str.capitalize` on ASCII text: the first letter upper case, the rest lower case. */
  function Capitalize(s: string): (r: string)
    ensures |r| == |s|
    ensures |s| > 0 ==> r[0] == UpperAscii(s[0])
    ensures forall i :: 0 < i < |s| ==> r[i] == LowerAscii(s[i])
  {
    if s == [] then [] else [UpperAscii(s[0])] + seq(|s| - 1, i requires 0 <= i < |s| - 1 => LowerAscii(s[i + 1]))
  }

  /** The four dimmer choices the tool accepts become the API's names for them. */
  lemma DimmerChoices()
    ensures Capitalize("off") == "Off"
    ensures Capitalize("low") == "Low"
    ensures Capitalize("medium") == "Medium"
    ensures Capitalize("high") == "High"
  {
  }

  /**
   * `set-chargepoint`: a truthy dimmer choice replaces the dimmer, capitalised;
   * a given downlight flag replaces the downlight; the id is kept.
   */
  method PatchChargePointSettings(settings: ChargePointSettings, dimmer: Option<string>, downLight: Option<bool>)
    modifies settings
    ensures settings.id == old(settings.id)
    ensures settings.dimmer == if TruthyText(dimmer) then Capitalize(dimmer.value) else old(settings.dimmer)
    ensures settings.downLight == if downLight.Some? then downLight.value else old(settings.downLight)
  {
    if TruthyText(dimmer) {
      settings.dimmer := Capitalize(dimmer.value);
    }
    if downLight.Some? {
      settings.downLight := downLight.value;
    }
  }

  /**
   * `set-connector`: each given argument replaces its field (`enabled` as
   * the mode "On" or "Off"); every other field, the charge point and
   * connector ids included, is kept.
   */
  method PatchConnectorSettings(settings: ChargePointConnectorSettings, maxCurrent: Option<int>,
                                enabled: Option<bool>, rfidLock: Option<bool>, cableLock: Option<bool>)
    modifies settings
    ensures settings.chargePointId == old(settings.chargePointId)
    ensures settings.connectorId == old(settings.connectorId)
    ensures settings.maxCurrent == if maxCurrent.Some? then Some(maxCurrent.value as real) else old(settings.maxCurrent)
    ensures settings.mode == if enabled.Some? then (if enabled.value then "On" else "Off") else old(settings.mode)
    ensures settings.rfidLock == if rfidLock.Some? then rfidLock.value else old(settings.rfidLock)
    ensures settings.cableLock == if cableLock.Some? then cableLock.value else old(settings.cableLock)
  {
    if maxCurrent.Some? {
      settings.maxCurrent := Some(maxCurrent.value as real);
    }
    if enabled.Some? {
      settings.mode := if enabled.value then "On" else "Off";
    }
    if rfidLock.Some? {
      settings.rfidLock := rfidLock.value;
    }
    if cableLock.Some? {
      settings.cableLock := cableLock.value;
    }
  }

  // ---------------------------------------------------------------------------
  // The remote-start command

  /**
   * The authorisation sent with a remote start: the tag as given, read as hex,
   * its length the number of whole bytes its hex digits encode.
   */
  function RemoteStartAuth(rfid: string, transactionId: string): (a: StartAuth)
    ensures a.rfid == rfid && a.rfidFormat == "hex" && a.externalTransactionId == transactionId
    ensures 0 <= 2 * a.rfidLength <= |rfid| < 2 * a.rfidLength + 2
  {
    StartAuth(|rfid| / 2, "hex", rfid, transactionId)
  }
}
