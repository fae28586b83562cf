/** The request validators of the Node back end. Each runs its checks in
    order and returns the message of the first one that fails, or null.
    `Date.parse` is a parameter: whatever it does with a string, the
    validators only ask whether its number is truthy. */
module Validator {
  import opened Common
  import opened JsValues

  const InstalledDateMessage := "installedDate must be a valid date string (YYYY-MM-DD)"
  const LastMaintainedMessage := "lastMaintained must be a valid date string (YYYY-MM-DD)"
  const FciIndexMessage := "fciIndex must be a number"

  /** `!Date.parse(v)` is false: the parse gave a number other than NaN and 0. */
  predicate ParsesAsDate(dateParse: JsValue -> JsNumber, v: JsValue)
  {
    NumberTruthy(dateParse(v))
  }

  /** `validateRoadwayAssetInput`; `None` stands for `null`. */
  function ValidateRoadwayAssetInput(dateParse: JsValue -> JsNumber, installedDate: JsValue, lastMaintained: JsValue)
    : (r: Option<string>)
    ensures r.None? <==> ParsesAsDate(dateParse, installedDate) && ParsesAsDate(dateParse, lastMaintained)
    ensures !ParsesAsDate(dateParse, installedDate) ==> r == Some(InstalledDateMessage)
    ensures r == Some(LastMaintainedMessage) <==>
      ParsesAsDate(dateParse, installedDate) && !ParsesAsDate(dateParse, lastMaintained)
  {
    if !ParsesAsDate(dateParse, installedDate) then Some(InstalledDateMessage)
    else if !ParsesAsDate(dateParse, lastMaintained) then Some(LastMaintainedMessage)
    else None
  }

  /** `validateHighwayBuilding`: the date first, then `typeof fciIndex`. */
  function ValidateHighwayBuilding(dateParse: JsValue -> JsNumber, installedDate: JsValue, fciIndex: JsValue)
    : (r: Option<string>)
    ensures r.None? <==> ParsesAsDate(dateParse, installedDate) && fciIndex.Number?
    ensures !ParsesAsDate(dateParse, installedDate) ==> r == Some(InstalledDateMessage)
    ensures r == Some(FciIndexMessage) <==> ParsesAsDate(dateParse, installedDate) && !fciIndex.Number?
  {
    if !ParsesAsDate(dateParse, installedDate) then Some(InstalledDateMessage)
    else if TypeOf(fciIndex) != "number" then Some(FciIndexMessage)
    else None
  }

  /** Both validators are total and only ever answer null or one of their
      fixed messages. */
  lemma ValidatorsAnswerFixedMessages(dateParse: JsValue -> JsNumber, a: JsValue, b: JsValue)
    ensures ValidateRoadwayAssetInput(dateParse, a, b) in {None, Some(InstalledDateMessage), Some(LastMaintainedMessage)}
    ensures ValidateHighwayBuilding(dateParse, a, b) in {None, Some(InstalledDateMessage), Some(FciIndexMessage)}
  {
  }

  /** A date string that parses to the epoch (0 ms) is rejected like an
      unparsable one, and so is one that parses to NaN, by both validators. */
  lemma EpochIsRejected(dateParse: JsValue -> JsNumber, installedDate: JsValue, other: JsValue)
    requires dateParse(installedDate) == Finite(0.0) || dateParse(installedDate) == NaN
    ensures ValidateRoadwayAssetInput(dateParse, installedDate, other) == Some(InstalledDateMessage)
    ensures ValidateHighwayBuilding(dateParse, installedDate, other) == Some(InstalledDateMessage)
  {
  }

  /** The `lastMaintained` message comes only after `installedDate` has
      passed: with both dates bad, the first message wins. */
  lemma FirstFailingCheckWins(dateParse: JsValue -> JsNumber, installedDate: JsValue, lastMaintained: JsValue)
    requires !ParsesAsDate(dateParse, installedDate) && !ParsesAsDate(dateParse, lastMaintained)
    ensures ValidateRoadwayAssetInput(dateParse, installedDate, lastMaintained) == Some(InstalledDateMessage)
  {
  }

  /** Every number passes the `fciIndex` check, NaN and the infinities
      included, while a numeric string does not. */
  lemma AnyNumberIsAnFciIndex(dateParse: JsValue -> JsNumber, installedDate: JsValue, n: JsNumber, s: string)
    requires ParsesAsDate(dateParse, installedDate)
    ensures ValidateHighwayBuilding(dateParse, installedDate, Number(n)).None?
    ensures ValidateHighwayBuilding(dateParse, installedDate, Number(NaN)).None?
    ensures ValidateHighwayBuilding(dateParse, installedDate, Str(s)) == Some(FciIndexMessage)
  {
  }
}
