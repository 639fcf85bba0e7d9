/**
 * The local logic of the organisation client (chargeamps/organisation.py):
 * RFID query validation and the query and body dictionaries its requests
 * carry. Each builder fills a dictionary key by key, as the source does; the
 * requests themselves go through the external client and are not repeated
 * here.
 */
module Organisation {
  import opened Wrappers

  /** A value in a query or body dictionary. */
  datatype Value = Text(text: string) | Number(number: int) | Record(fields: map<string, string>)

  /** Why building a user payload fails (the source raises `ValueError`). */
  datatype UserError = PasswordTooShort

  /** The shortest password the client lets through. */
  const MinPasswordLength: nat := 8

  predicate KnownFormat(rfidFormat: string) {
    rfidFormat == "Hex" || rfidFormat == "Dec" || rfidFormat == "ReverseDec"
  }

  predicate IsDecimal(rfidFormat: string) {
    rfidFormat == "Dec" || rfidFormat == "ReverseDec"
  }

  /** Tag lengths, in bytes, the API knows. */
  predicate AllowedLength(rfidLength: Option<int>) {
    rfidLength.Some? && rfidLength.value in {4, 7, 10}
  }

  /** A hex tag given without a length is passed on as it is. */
  predicate HexUnsized(rfidFormat: string, rfidLength: Option<int>) {
    rfidFormat == "Hex" && !TruthyInt(rfidLength)
  }

  /** The query parameters that select an RFID tag, or none when the description is rejected. */
  function RfidParams(rfid: string, rfidFormat: string, rfidLength: Option<int>, decFormatLength: Option<int>)
    : map<string, Value>
  {
    if !KnownFormat(rfidFormat) then map[]
    else if HexUnsized(rfidFormat, rfidLength) then map["rfid" := Text(rfid)]
    else if !AllowedLength(rfidLength) then map[]
    else
      map["rfid" := Text(rfid), "rfidLength" := Number(rfidLength.value), "rfidFormat" := Text(rfidFormat)]
      + (if IsDecimal(rfidFormat) && TruthyInt(decFormatLength)
         then map["rfidDecimalFormatLength" := Number(decFormatLength.value)]
         else map[])
  }

  /** `verify_rfid`: checks the format and the length and builds the parameters step by step. */
  method VerifyRfid(rfid: string, rfidFormat: string, rfidLength: Option<int>, decFormatLength: Option<int>)
    returns (result: map<string, Value>)
    ensures result == RfidParams(rfid, rfidFormat, rfidLength, decFormatLength)
    ensures result == map[] <==> !KnownFormat(rfidFormat) || (!HexUnsized(rfidFormat, rfidLength) && !AllowedLength(rfidLength))
  {
    result := map[];
    result := result["rfid" := Text(rfid)];
    assert "rfid" in result;
    if rfidFormat == "Hex" {
      if !TruthyInt(rfidLength) {
        return result;
      }
    } else if rfidFormat == "Dec" || rfidFormat == "ReverseDec" {
      if TruthyInt(decFormatLength) {
        result := result["rfidDecimalFormatLength" := Number(decFormatLength.value)];
      }
    } else {
      return map[];
    }

    if rfidLength.Some? && rfidLength.value in {4, 7, 10} {
      result := result["rfidLength" := Number(rfidLength.value)];
    } else {
      return map[];
    }

    result := result["rfidFormat" := Text(rfidFormat)];
    assert "rfid" in result;
  }

  /** A format other than "Hex", "Dec" and "ReverseDec" is rejected. */
  lemma UnknownFormatRejected(rfid: string, rfidFormat: string, rfidLength: Option<int>, decFormatLength: Option<int>)
    requires !KnownFormat(rfidFormat)
    ensures RfidParams(rfid, rfidFormat, rfidLength, decFormatLength) == map[]
  {
  }

  /** "Hex" without a (truthy) length yields only the tag, whatever the decimal length says. */
  lemma HexWithoutLengthPassesTag(rfid: string, decFormatLength: Option<int>)
    ensures RfidParams(rfid, "Hex", None, decFormatLength) == map["rfid" := Text(rfid)]
    ensures RfidParams(rfid, "Hex", Some(0), decFormatLength) == map["rfid" := Text(rfid)]
  {
  }

  /** A length other than 4, 7 or 10 is rejected; for the decimal formats so is a missing one. */
  lemma BadLengthRejected(rfid: string, rfidFormat: string, rfidLength: Option<int>, decFormatLength: Option<int>)
    requires KnownFormat(rfidFormat) && !AllowedLength(rfidLength)
    requires rfidFormat != "Hex" || TruthyInt(rfidLength)
    ensures RfidParams(rfid, rfidFormat, rfidLength, decFormatLength) == map[]
  {
  }

  /**
   * An accepted description with a length passes on the tag, its length and
   * its format unchanged; the decimal length appears only for the decimal
   * formats, and only when truthy.
   */
  lemma AcceptedParams(rfid: string, rfidFormat: string, rfidLength: Option<int>, decFormatLength: Option<int>)
    requires KnownFormat(rfidFormat) && AllowedLength(rfidLength)
    ensures var r := RfidParams(rfid, rfidFormat, rfidLength, decFormatLength);
            && r["rfid"] == Text(rfid)
            && r["rfidLength"] == Number(rfidLength.value)
            && r["rfidFormat"] == Text(rfidFormat)
            && ("rfidDecimalFormatLength" in r <==> IsDecimal(rfidFormat) && TruthyInt(decFormatLength))
            && r.Keys <= {"rfid", "rfidLength", "rfidFormat", "rfidDecimalFormatLength"}
  {
  }

  /**
   * The tag itself is never inspected: whether a description is accepted does
   * not depend on it, and an accepted one passes it on unchanged, "12G4"
   * included.
   */
  lemma TagTextNeverChecked(rfid: string, other: string, rfidFormat: string, rfidLength: Option<int>,
                            decFormatLength: Option<int>)
    ensures (RfidParams(rfid, rfidFormat, rfidLength, decFormatLength) == map[])
            == (RfidParams(other, rfidFormat, rfidLength, decFormatLength) == map[])
    ensures RfidParams(rfid, rfidFormat, rfidLength, decFormatLength) != map[] ==>
              RfidParams(rfid, rfidFormat, rfidLength, decFormatLength)["rfid"] == Text(rfid)
    ensures RfidParams("12G4", "Hex", Some(4), None)["rfid"] == Text("12G4")
  {
  }

  /**
   * The query of `get_organisation_charging_sessions`: the time bounds (as
   * ISO-8601 text) when given, and the RFID parameters when a tag is given.
   */
  method ChargingSessionsQuery(startTime: Option<string>, endTime: Option<string>, rfid: Option<string>,
                               rfidFormat: string, rfidLength: Option<int>, decFormatLength: Option<int>)
    returns (query: map<string, Value>)
    ensures "startTime" in query <==> startTime.Some?
    ensures "endTime" in query <==> endTime.Some?
    ensures startTime.Some? ==> query["startTime"] == Text(startTime.value)
    ensures endTime.Some? ==> query["endTime"] == Text(endTime.value)
    ensures !TruthyText(rfid) ==> query.Keys <= {"startTime", "endTime"}
    ensures TruthyText(rfid) ==>
              forall k :: k in RfidParams(rfid.value, rfidFormat, rfidLength, decFormatLength) ==>
                k in query && query[k] == RfidParams(rfid.value, rfidFormat, rfidLength, decFormatLength)[k]
    ensures query.Keys <= {"startTime", "endTime"} + RfidParams(rfid.GetOr(""), rfidFormat, rfidLength, decFormatLength).Keys
  {
    query := map[];
    if startTime.Some? {
      query := query["startTime" := Text(startTime.value)];
    }
    if endTime.Some? {
      query := query["endTime" := Text(endTime.value)];
    }
    if TruthyText(rfid) {
      var params := VerifyRfid(rfid.value, rfidFormat, rfidLength, decFormatLength);
      query := query + params;
    }
  }

  /** A rejected tag description adds nothing to the sessions query. */
  lemma RejectedTagAddsNothing(rfid: string, rfidFormat: string, rfidLength: Option<int>, decFormatLength: Option<int>)
    requires !KnownFormat(rfidFormat) || (!HexUnsized(rfidFormat, rfidLength) && !AllowedLength(rfidLength))
    ensures RfidParams(rfid, rfidFormat, rfidLength, decFormatLength).Keys == {}
  {
  }

  /** The query of `get_organisation_users`. */
  method UsersQuery(expandRfid: bool, decFormatLength: Option<int>) returns (query: map<string, Value>)
    ensures "rfidDecimalFormatLength" in query <==> TruthyInt(decFormatLength)
    ensures TruthyInt(decFormatLength) ==> query["rfidDecimalFormatLength"] == Number(decFormatLength.value)
    ensures "expand" in query <==> expandRfid
    ensures expandRfid ==> query["expand"] == Text("rfid")
    ensures query.Keys <= {"rfidDecimalFormatLength", "expand"}
  {
    query := map[];
    if TruthyInt(decFormatLength) {
      query := query["rfidDecimalFormatLength" := Number(decFormatLength.value)];
    }
    if expandRfid {
      query := query["expand" := Text("rfid")];
    }
  }

  /** The body of `add_organisation_user`: `key` holds `arg` exactly when `arg` is truthy. */
  ghost predicate Carries(payload: map<string, Value>, key: string, arg: Option<string>) {
    && (key in payload <==> TruthyText(arg))
    && (TruthyText(arg) ==> payload[key] == Text(arg.value))
  }

  /**
   * The body of `add_organisation_user`: the truthy optional fields under
   * their camel-case keys; a non-empty password shorter than eight characters
   * is refused before any request.
   */
  method NewUserPayload(firstName: Option<string>, lastName: Option<string>, email: Option<string>,
                        mobile: Option<string>, rfidTags: Option<map<string, string>>, password: Option<string>)
    returns (result: Result<map<string, Value>, UserError>)
    ensures result.Failure? <==> TruthyText(password) && |password.value| < MinPasswordLength
    ensures result.Success? ==>
              && Carries(result.value, "firstName", firstName)
              && Carries(result.value, "lastName", lastName)
              && Carries(result.value, "email", email)
              && Carries(result.value, "mobile", mobile)
              && Carries(result.value, "password", password)
              && ("rfidTags" in result.value <==> rfidTags.Some?)
              && (rfidTags.Some? ==> result.value["rfidTags"] == Record(rfidTags.value))
              && result.value.Keys <= {"firstName", "lastName", "email", "mobile", "rfidTags", "password"}
  {
    var payload: map<string, Value> := map[];
    if TruthyText(firstName) {
      payload := payload["firstName" := Text(firstName.value)];
    }
    if TruthyText(lastName) {
      payload := payload["lastName" := Text(lastName.value)];
    }
    if TruthyText(email) {
      payload := payload["email" := Text(email.value)];
    }
    if TruthyText(mobile) {
      payload := payload["mobile" := Text(mobile.value)];
    }
    if rfidTags.Some? {
      payload := payload["rfidTags" := Record(rfidTags.value)];
    }
    if TruthyText(password) {
      if |password.value| >= MinPasswordLength {
        payload := payload["password" := Text(password.value)];
      } else {
        return Failure(PasswordTooShort);
      }
    }
    return Success(payload);
  }
}
