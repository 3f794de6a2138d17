/** Carrier verification: the MC-number format check, the search for the
    carrier record in the registry's decoded reply, the eligibility verdict
    and the verdict response built from them. */
module Carriers {
  import opened Wrappers
  import opened Text
  import opened Json

  // ---------------------------------------------------------------------
  // MC-number format

  /** Four to seven ASCII digits and nothing else. */
  predicate IsMcDigits(s: string) {
    4 <= |s| <= 7 && forall i | 0 <= i < |s| :: IsDigit(s[i])
  }

  /** `MC_RE.match(s)` for `MC_RE = re.compile(r"^\d{4,7}$")`: Python's `$`
      matches at the very end and also just before a final line feed. */
  predicate McPatternMatches(s: string) {
    IsMcDigits(s) || (s != [] && s[|s| - 1] == '\n' && IsMcDigits(s[..|s| - 1]))
  }

  /** Once the input is stripped, the pattern accepts exactly the strings of
      four to seven digits: the line-feed allowance of `$` can never apply. */
  lemma StrippedMcPattern(mc: string)
    ensures McPatternMatches(Strip(mc)) <==> IsMcDigits(Strip(mc))
  {
    var t := Strip(mc);
    StripSpec(mc);
    var i, j :| StripCut(mc, i, j) && t == mc[i..j];
    if t != [] {
      assert !IsSpace(t[|t| - 1]);
    }
  }

  // ---------------------------------------------------------------------
  // Locating the carrier record in a registry reply

  /** `item["carrier"]` when item is an object whose "carrier" member is itself
      an object. */
  function ItemCarrier(item: Json): Option<Json> {
    if item.JObj? then
      match Get(item.fields, "carrier")
      case Some(JObj(c)) => Some(JObj(c))
      case _ => None
    else None
  }

  /** The carrier of the first list item that has one. */
  function FirstItemCarrier(items: seq<Json>): Option<Json> {
    if items == [] then None
    else if ItemCarrier(items[0]).Some? then ItemCarrier(items[0])
    else FirstItemCarrier(items[1..])
  }

  /** The carrier found in the first member value that is a list holding an
      item with one. */
  function FirstListCarrier(fields: seq<(string, Json)>): Option<Json> {
    if fields == [] then None
    else if fields[0].1.JArr? && FirstItemCarrier(fields[0].1.items).Some? then
      FirstItemCarrier(fields[0].1.items)
    else FirstListCarrier(fields[1..])
  }

  /** The record `choose_carrier` settles on: the top-level "carrier" object,
      else the first "carrier" object of a list item. */
  function CarrierOf(payload: Json): Option<Json> {
    match payload
    case JObj(fields) =>
      (match Get(fields, "carrier")
       case Some(JObj(c)) => Some(JObj(c))
       case _ => FirstListCarrier(fields))
    case JArr(items) => FirstItemCarrier(items)
    case _ => None
  }

  /** c is an object stored under "carrier" in one of the places the search
      looks: the payload object itself, an item of the payload list, or an item
      of a list held by a member of the payload object. */
  ghost predicate CarrierSite(payload: Json, c: Json) {
    && c.JObj?
    && (|| (payload.JObj? && Get(payload.fields, "carrier") == Some(c))
        || (payload.JArr? && exists item | item in payload.items ::
              item.JObj? && Get(item.fields, "carrier") == Some(c))
        || (payload.JObj? && exists k, v, item | (k, v) in payload.fields && v.JArr? && item in v.items ::
              item.JObj? && Get(item.fields, "carrier") == Some(c)))
  }

  lemma {:induction false} FirstItemCarrierSound(items: seq<Json>)
    ensures FirstItemCarrier(items).Some? ==>
      var c := FirstItemCarrier(items).value;
      c.JObj? && exists item | item in items :: item.JObj? && Get(item.fields, "carrier") == Some(c)
    ensures FirstItemCarrier(items).None? ==>
      forall item | item in items && item.JObj? :: Get(item.fields, "carrier").None? || !Get(item.fields, "carrier").value.JObj?
  {
    if items != [] {
      FirstItemCarrierSound(items[1..]);
      assert forall item | item in items :: item == items[0] || item in items[1..];
    }
  }

  lemma {:induction false} FirstListCarrierSound(fields: seq<(string, Json)>)
    ensures FirstListCarrier(fields).Some? ==>
      var c := FirstListCarrier(fields).value;
      c.JObj? && exists k, v, item | (k, v) in fields && v.JArr? && item in v.items ::
        item.JObj? && Get(item.fields, "carrier") == Some(c)
    ensures FirstListCarrier(fields).None? ==>
      forall k, v, item | (k, v) in fields && v.JArr? && item in v.items && item.JObj? ::
        Get(item.fields, "carrier").None? || !Get(item.fields, "carrier").value.JObj?
  {
    if fields != [] {
      FirstListCarrierSound(fields[1..]);
      if fields[0].1.JArr? {
        FirstItemCarrierSound(fields[0].1.items);
      }
      assert forall f | f in fields :: f == fields[0] || f in fields[1..];
    }
  }

  /** The carrier taken from a list is that of the first item that has one. */
  lemma {:induction false} FirstItemCarrierFirst(items: seq<Json>)
    ensures FirstItemCarrier(items).Some? ==>
      exists j | 0 <= j < |items| ::
        && ItemCarrier(items[j]) == FirstItemCarrier(items)
        && forall i | 0 <= i < j :: ItemCarrier(items[i]).None?
  {
    if items != [] && ItemCarrier(items[0]).None? {
      FirstItemCarrierFirst(items[1..]);
      if FirstItemCarrier(items).Some? {
        var j :| 0 <= j < |items[1..]| && ItemCarrier(items[1..][j]) == FirstItemCarrier(items[1..])
          && forall i | 0 <= i < j :: ItemCarrier(items[1..][i]).None?;
        assert ItemCarrier(items[j + 1]) == FirstItemCarrier(items);
        forall i | 0 <= i < j + 1
          ensures ItemCarrier(items[i]).None?
        {
          if i > 0 {
            assert items[i] == items[1..][i - 1];
          }
        }
      }
    } else if items != [] {
      assert ItemCarrier(items[0]) == FirstItemCarrier(items);
    }
  }

  /** A list member holding an item with a carrier. */
  predicate HasListCarrier(v: Json) {
    v.JArr? && FirstItemCarrier(v.items).Some?
  }

  /** The carrier taken from the object's members comes from the first
      list-valued member that holds an item with one. */
  lemma {:induction false} FirstListCarrierFirst(fields: seq<(string, Json)>)
    ensures FirstListCarrier(fields).Some? ==>
      exists j | 0 <= j < |fields| ::
        && HasListCarrier(fields[j].1)
        && FirstItemCarrier(fields[j].1.items) == FirstListCarrier(fields)
        && forall i | 0 <= i < j :: !HasListCarrier(fields[i].1)
  {
    if fields != [] && !HasListCarrier(fields[0].1) {
      FirstListCarrierFirst(fields[1..]);
      if FirstListCarrier(fields).Some? {
        var t := fields[1..];
        var j :| 0 <= j < |t| && HasListCarrier(t[j].1)
          && FirstItemCarrier(t[j].1.items) == FirstListCarrier(t)
          && forall i | 0 <= i < j :: !HasListCarrier(t[i].1);
        assert fields[j + 1] == t[j];
        forall i | 0 <= i < j + 1
          ensures !HasListCarrier(fields[i].1)
        {
          if i > 0 {
            assert fields[i] == t[i - 1];
          }
        }
      }
    } else if fields != [] {
      assert FirstListCarrier(fields) == FirstItemCarrier(fields[0].1.items);
    }
  }

  /** What the search returns is a carrier object sitting where it looks, and it
      returns nothing only when no such object exists. */
  lemma CarrierOfSound(payload: Json)
    ensures CarrierOf(payload).Some? ==> CarrierSite(payload, CarrierOf(payload).value)
    ensures CarrierOf(payload).None? <==> forall c :: !CarrierSite(payload, c)
  {
    match payload
    case JObj(fields) =>
      FirstListCarrierSound(fields);
      if CarrierOf(payload).None? {
        var top := Get(fields, "carrier");
        assert top.None? || !top.value.JObj?;
        forall c
          ensures !CarrierSite(payload, c)
        {
          if c.JObj? {
            assert top != Some(c);
            assert !exists k, v, item | (k, v) in fields && v.JArr? && item in v.items ::
              item.JObj? && Get(item.fields, "carrier") == Some(c);
          }
        }
      } else {
        assert CarrierSite(payload, CarrierOf(payload).value);
      }
    case JArr(items) =>
      FirstItemCarrierSound(items);
      if CarrierOf(payload).None? {
        forall c
          ensures !CarrierSite(payload, c)
        {
          if c.JObj? {
            assert !exists item | item in items :: item.JObj? && Get(item.fields, "carrier") == Some(c);
          }
        }
      } else {
        assert CarrierSite(payload, CarrierOf(payload).value);
      }
    case _ =>
  }

  /** The top-level "carrier" object wins over any carrier found in a list. */
  lemma TopLevelCarrierFirst(fields: seq<(string, Json)>, c: seq<(string, Json)>)
    requires Get(fields, "carrier") == Some(JObj(c))
    ensures CarrierOf(JObj(fields)) == Some(JObj(c))
  {
  }

  /** Scans list items in order for the first one carrying a "carrier" object. */
  method ScanItems(items: seq<Json>) returns (r: Option<Json>)
    ensures r == FirstItemCarrier(items)
  {
    var j := 0;
    while j < |items|
      invariant 0 <= j <= |items|
      invariant FirstItemCarrier(items) == FirstItemCarrier(items[j..])
    {
      var item := items[j];
      assert items[j..][1..] == items[j + 1..];
      if item.JObj? {
        var c := Get(item.fields, "carrier");
        if c.Some? && c.value.JObj? {
          return c;
        }
      }
      j := j + 1;
    }
    return None;
  }

  /** `choose_carrier(payload)`. */
  method ChooseCarrier(payload: Json) returns (r: Option<Json>)
    ensures r == CarrierOf(payload)
  {
    match payload {
      case JObj(fields) =>
        var top := Get(fields, "carrier");
        if top.Some? && top.value.JObj? {
          return top;
        }
        var i := 0;
        while i < |fields|
          invariant 0 <= i <= |fields|
          invariant CarrierOf(payload) == FirstListCarrier(fields[i..])
        {
          var v := fields[i].1;
          assert fields[i..][1..] == fields[i + 1..];
          if v.JArr? {
            var found := ScanItems(v.items);
            if found.Some? {
              return found;
            }
          }
          i := i + 1;
        }
        return None;
      case JArr(items) =>
        r := ScanItems(items);
      case _ =>
        return None;
    }
  }

  // ---------------------------------------------------------------------
  // Eligibility verdict

  /** The registry fields the service reads. The two identifiers are kept as
      raw values, since the response prints whatever is there with `str()`;
      the others are read as strings. */
  datatype CarrierRecord = CarrierRecord(
    allowToOperate: Option<string>,
    outOfService: Option<string>,
    outOfServiceDate: Option<string>,
    mcNumber: Option<Json>,
    dotNumber: Option<Json>,
    legalName: Option<string>,
    dbaName: Option<string>)

  /** Reads the carrier object's fields. */
  function RecordOf(fields: seq<(string, Json)>): CarrierRecord {
    CarrierRecord(
      GetText(fields, "allowToOperate"),
      GetText(fields, "outOfService"),
      GetText(fields, "outOfServiceDate"),
      Get(fields, "mcNumber"),
      Get(fields, "dotNumber"),
      GetText(fields, "legalName"),
      GetText(fields, "dbaName"))
  }

  /** The reason given to an eligible carrier. (Written as two literals so the
      verifier can read its characters.) */
  const ActiveReason: string := "Active: allowed to operate" + " and not out of service"

  /** `(' since ' + oos_d) if oos_d else ''`. */
  function SinceSuffix(date: Option<string>): string {
    if Filled(date) then " since " + date.value else ""
  }

  /** The registry allows the carrier to operate: neither allowToOperate "N"
      nor outOfService "Y". Missing or other flag values count as allowed. */
  predicate Eligible(c: CarrierRecord) {
    c.allowToOperate != Some("N") && c.outOfService != Some("Y")
  }

  /** The failing flags, in the order `compute_verdict` checks them. */
  function FailReasons(c: CarrierRecord): seq<string> {
    (if c.allowToOperate == Some("N") then ["allowToOperate=N"] else [])
    + (if c.outOfService == Some("Y") then ["outOfService=Y" + SinceSuffix(c.outOfServiceDate)] else [])
  }

  /** The reason `compute_verdict` reports for a record. */
  function VerdictReason(c: CarrierRecord): string {
    if Eligible(c) then ActiveReason
    else
      var joined := Join("; ", FailReasons(c));
      if joined != "" then joined else "Not eligible"
  }

  /** The reason is the active text exactly for an eligible carrier; otherwise
      it names each failing flag, allowToOperate first, joined by "; ", and the
      "Not eligible" fallback is never reached. */
  lemma VerdictReasonCases(c: CarrierRecord)
    ensures Eligible(c) <==> VerdictReason(c) == ActiveReason
    ensures c.allowToOperate == Some("N") && c.outOfService != Some("Y") ==>
      VerdictReason(c) == "allowToOperate=N"
    ensures c.allowToOperate != Some("N") && c.outOfService == Some("Y") ==>
      VerdictReason(c) == "outOfService=Y" + SinceSuffix(c.outOfServiceDate)
    ensures c.allowToOperate == Some("N") && c.outOfService == Some("Y") ==>
      VerdictReason(c) == "allowToOperate=N; outOfService=Y" + SinceSuffix(c.outOfServiceDate)
    ensures VerdictReason(c) != "Not eligible"
  {
    if !Eligible(c) {
      var reasons := FailReasons(c);
      if |reasons| == 2 {
        assert Join("; ", reasons) == reasons[0] + "; " + Join("; ", reasons[1..]);
        assert reasons[1..] == [reasons[1]];
      }
      var reason := VerdictReason(c);
      assert reason[0] == 'a' || reason[0] == 'o';
      assert ActiveReason[0] == 'A';
    }
  }

  /** `compute_verdict(carrier)`: the flags are checked one after the other,
      collecting the reasons. */
  method ComputeVerdict(c: CarrierRecord) returns (ok: bool, reason: string)
    ensures ok <==> Eligible(c)
    ensures reason == VerdictReason(c)
    ensures ok <==> reason == ActiveReason
    ensures c.allowToOperate == Some("N") && c.outOfService != Some("Y") ==>
      reason == "allowToOperate=N"
    ensures c.allowToOperate != Some("N") && c.outOfService == Some("Y") ==>
      reason == "outOfService=Y" + SinceSuffix(c.outOfServiceDate)
    ensures c.allowToOperate == Some("N") && c.outOfService == Some("Y") ==>
      reason == "allowToOperate=N; outOfService=Y" + SinceSuffix(c.outOfServiceDate)
    ensures reason != "Not eligible"
  {
    var reasons: seq<string> := [];
    ok := true;
    if c.allowToOperate == Some("N") {
      ok := false;
      reasons := reasons + ["allowToOperate=N"];
    }
    if c.outOfService == Some("Y") {
      ok := false;
      reasons := reasons + ["outOfService=Y" + SinceSuffix(c.outOfServiceDate)];
    }
    assert reasons == FailReasons(c);
    if ok {
      reason := ActiveReason;
    } else {
      var joined := Join("; ", reasons);
      reason := if joined != "" then joined else "Not eligible";
    }
    VerdictReasonCases(c);
  }

  // ---------------------------------------------------------------------
  // The verdict response

  /** The body of a successful carrier lookup. */
  datatype CarrierVerdict = CarrierVerdict(
    eligible: bool,
    reason: string,
    mcNumber: string,
    dotNumber: string,
    legalName: Option<string>,
    dbaName: Option<string>,
    outOfServiceDate: Option<string>)

  /** The ways a lookup is refused before or after the registry answers. */
  datatype LookupError =
    | InvalidMcFormat                    // HTTP 400 "Invalid MC number format"
    | CarrierNotFound(detail: Option<Json>)  // HTTP 404 with the given detail

  /** The 404 detail: the reply's "content" member when the reply is an object. */
  function NotFoundDetail(payload: Json): Option<Json> {
    if payload.JObj? then Get(payload.fields, "content")
    else Some(JStr("Carrier not found or unrecognized response"))
  }

  /** `str(v or default)` for a value read with `dict.get`: a missing or
      falsy value gives default, a truthy string itself, a truthy number its
      decimal digits. */
  function TextOr(v: Option<Json>, default: string): (r: string)
    ensures v.None? || !Truthy(v.value) ==> r == default
    ensures v.Some? && v.value.JStr? && v.value.s != "" ==> r == v.value.s
    ensures v.Some? && v.value.JNum? && v.value.n != 0 ==> r == IntText(v.value.n)
    ensures default != "" ==> r != ""
  {
    if v.Some? && Truthy(v.value) && ScalarText(v.value).Some? then ScalarText(v.value).value
    else default
  }

  /** A carrier object Python treats as true, that is a non-empty dict. */
  predicate NonEmptyObject(j: Json) {
    j.JObj? && j.fields != []
  }

  /** `find_carrier(mc)` once the registry has answered with a decoded payload:
      the MC number is validated, the carrier record located, the verdict
      computed and the response assembled. */
  method FindCarrier(mc: string, payload: Json) returns (r: Result<CarrierVerdict, LookupError>)
    ensures r == Failure(InvalidMcFormat) <==> !IsMcDigits(Strip(mc))
    ensures IsMcDigits(Strip(mc)) && !(CarrierOf(payload).Some? && NonEmptyObject(CarrierOf(payload).value)) ==>
      r == Failure(CarrierNotFound(NotFoundDetail(payload)))
    ensures IsMcDigits(Strip(mc)) && CarrierOf(payload).Some? && NonEmptyObject(CarrierOf(payload).value) ==>
      r.Success?
    ensures r.Success? ==>
      && IsMcDigits(Strip(mc))
      && CarrierOf(payload).Some? && NonEmptyObject(CarrierOf(payload).value)
      && CarrierSite(payload, CarrierOf(payload).value)
      && var rec := RecordOf(CarrierOf(payload).value.fields);
      && (r.value.eligible <==> Eligible(rec))
      && r.value.reason == VerdictReason(rec)
      && r.value.mcNumber == TextOr(rec.mcNumber, Strip(mc))
      && r.value.mcNumber != ""
      && r.value.dotNumber == TextOr(rec.dotNumber, "")
      && r.value.legalName == rec.legalName
      && r.value.dbaName == rec.dbaName
      && r.value.outOfServiceDate == rec.outOfServiceDate
  {
    var mcDigits := Strip(mc);
    StrippedMcPattern(mc);
    if !McPatternMatches(mcDigits) {
      return Failure(InvalidMcFormat);
    }
    var carrier := ChooseCarrier(payload);
    CarrierOfSound(payload);
    if carrier.None? || !NonEmptyObject(carrier.value) {
      return Failure(CarrierNotFound(NotFoundDetail(payload)));
    }
    var rec := RecordOf(carrier.value.fields);
    var ok, reason := ComputeVerdict(rec);
    r := Success(CarrierVerdict(
      ok, reason,
      TextOr(rec.mcNumber, mcDigits),
      TextOr(rec.dotNumber, ""),
      rec.legalName,
      rec.dbaName,
      rec.outOfServiceDate));
  }
}
