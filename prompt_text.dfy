/**
 * Clauses the prompt builders of backend/geminiClient.js and
 * functions/suggestions.ts share word for word: the day clause, the
 * schedule clause with its 300-character cut, and JavaScript's rendering
 * of an absent value inside a template literal.
 */
module PromptText {
  import opened Common
  import opened JsText

  /** The schedule is cut to its first 300 characters. */
  const ScheduleLimit := 300

  /** `rawschedule ? rawschedule.substring(0, 300) : ''` */
  function ScheduleOf(raw: Option<string>): (s: string)
    ensures |s| <= ScheduleLimit
    ensures raw.Some? ==> StartsWith(raw.value, s)
    ensures raw.Some? && |raw.value| <= ScheduleLimit ==> s == raw.value
    ensures raw.Some? && |raw.value| > ScheduleLimit ==> s == raw.value[..ScheduleLimit]
  {
    match raw
    case None => ""
    case Some(r) => if r == "" then "" else Take(r, ScheduleLimit)
  }

  /** `"${s}"` */
  function Quoted(s: string): string {
    "\"" + s + "\""
  }

  const ScheduleIntro := " The user has provided a schedule: "
  const ScheduleOutro := ". Suggestions MUST be tailored to these activities."

  /** The sentence quoting the schedule, or nothing when the cut schedule
      is empty or whitespace. */
  function ScheduleClause(raw: Option<string>): string {
    var schedule := ScheduleOf(raw);
    if schedule != "" && !IsBlank(schedule) then
      ScheduleIntro + Quoted(schedule) + ScheduleOutro
    else ""
  }

  /** `day === 'tomorrow' ? 'for tomorrow' : 'for today'` */
  function DayClause(day: Option<string>): (r: string)
    ensures r == "for tomorrow" || r == "for today"
    ensures r == "for tomorrow" <==> day == Some("tomorrow")
  {
    if day == Some("tomorrow") then "for tomorrow" else "for today"
  }

  /** `${x}` for an optional string: an absent value prints as "undefined". */
  function TextOf(x: Option<string>): string {
    match x
    case Some(s) => s
    case None => "undefined"
  }

  /** `${x}` for an optional number, `show` being the engine's rendering of
      a number. */
  function NumberText(x: Option<real>, show: real -> string): string {
    match x
    case Some(v) => show(v)
    case None => "undefined"
  }

  /** `family.join(', ')` */
  function FamilyList(family: seq<string>): string {
    Join(family, ", ")
  }

  /** Every family member's text occurs in the joined list. */
  lemma FamilyListContains(family: seq<string>, k: nat)
    requires k < |family|
    ensures Contains(FamilyList(family), family[k])
  {
    JoinContains(family, ", ", k);
  }

  // ---------------------------------------------------------------------
  // Properties of the schedule clause
  // ---------------------------------------------------------------------

  /** The clause is omitted exactly when the cut schedule is blank. */
  lemma ScheduleClauseOmitted(raw: Option<string>)
    ensures ScheduleClause(raw) == "" <==> IsBlank(ScheduleOf(raw))
  {
    var schedule := ScheduleOf(raw);
    if schedule == "" {
      assert AllSpace(schedule);
    }
  }

  /** A schedule that is not blank appears verbatim, inside quotes. */
  lemma ScheduleClauseQuotes(raw: Option<string>)
    requires !IsBlank(ScheduleOf(raw))
    ensures Contains(ScheduleClause(raw), Quoted(ScheduleOf(raw)))
  {
    var schedule := ScheduleOf(raw);
    assert schedule != "" by { assert AllSpace(schedule) ==> Trim(schedule) == ""; }
    ContainsInMiddle(ScheduleIntro, Quoted(schedule), ScheduleOutro);
  }

  /** Only the first 300 characters of the schedule reach the prompt. */
  lemma ScheduleClauseCut(a: string, b: string)
    requires Take(a, ScheduleLimit) == Take(b, ScheduleLimit)
    ensures ScheduleClause(Some(a)) == ScheduleClause(Some(b))
  {
  }

  /** An absent schedule and a blank one give the same prompt text. */
  lemma NoScheduleIsBlankSchedule(raw: Option<string>)
    requires IsBlank(ScheduleOf(raw))
    ensures ScheduleClause(raw) == ScheduleClause(None)
  {
    ScheduleClauseOmitted(raw);
    ScheduleClauseOmitted(None);
    assert AllSpace(ScheduleOf(None));
  }
}
