/**
 * The weekly plan record the model returns, and the style choices the
 * plan view makes from it: the intensity badge colours with their neutral
 * fallback, the per-day icon and accent colours, and which optional
 * blocks of a day card are shown.
 */
module WorkoutPlan {

  datatype WorkoutActivity = WorkoutActivity(name: string, duration: string, intensity: string, details: string)

  /** `dayType` is the JSON field `type`; the model is asked for rest | run | strength | cross-train. */
  datatype WorkoutDay = WorkoutDay(
    dayNumber: int,
    title: string,
    dayType: string,
    activities: seq<WorkoutActivity>,
    coachTips: seq<string>)

  datatype WeeklyPlan = WeeklyPlan(weeklySummary: string, days: seq<WorkoutDay>)

  const NeutralBadge: string := "bg-gray-100 text-gray-700"

  /** The badge colour table of the intensity badge. */
  const IntensityColors: map<string, string> := map[
    "Easy" := "bg-green-100 text-green-700",
    "Moderate" := "bg-blue-100 text-blue-700",
    "Hard" := "bg-orange-100 text-orange-700",
    "Max" := "bg-red-100 text-red-700"]

  /** `colors[intensity] || neutral`: a total lookup, never a failure. */
  function IntensityClass(intensity: string): (r: string)
    ensures intensity == "Easy" ==> r == "bg-green-100 text-green-700"
    ensures intensity == "Moderate" ==> r == "bg-blue-100 text-blue-700"
    ensures intensity == "Hard" ==> r == "bg-orange-100 text-orange-700"
    ensures intensity == "Max" ==> r == "bg-red-100 text-red-700"
    ensures r == NeutralBadge <==> intensity !in {"Easy", "Moderate", "Hard", "Max"}
  {
    if intensity in IntensityColors && IntensityColors[intensity] != "" then IntensityColors[intensity]
    else NeutralBadge
  }

  datatype Glyph = MapGlyph | DumbbellGlyph | CoffeeGlyph | ZapGlyph

  datatype IconView = IconView(glyph: Glyph, colour: string)

  /** The `switch` of the day-type icon, whose default branch takes every other type. */
  function TypeIcon(dayType: string): (r: IconView)
    ensures dayType == "run" ==> r == IconView(MapGlyph, "text-blue-500")
    ensures dayType == "strength" ==> r == IconView(DumbbellGlyph, "text-purple-500")
    ensures dayType == "rest" ==> r == IconView(CoffeeGlyph, "text-gray-400")
    ensures dayType !in {"run", "strength", "rest"} ==> r == IconView(ZapGlyph, "text-orange-500")
    ensures r.glyph == ZapGlyph <==> dayType !in {"run", "strength", "rest"}
  {
    match dayType
    case "run" => IconView(MapGlyph, "text-blue-500")
    case "strength" => IconView(DumbbellGlyph, "text-purple-500")
    case "rest" => IconView(CoffeeGlyph, "text-gray-400")
    case _ => IconView(ZapGlyph, "text-orange-500")
  }

  /** The colour of the strip on the left edge of a day card. */
  function DayAccent(dayType: string): (r: string)
    ensures dayType == "rest" ==> r == "bg-gray-200"
    ensures dayType == "run" ==> r == "bg-blue-500"
    ensures dayType == "strength" ==> r == "bg-purple-500"
    ensures r == "bg-orange-500" <==> dayType !in {"rest", "run", "strength"}
  {
    if dayType == "rest" then "bg-gray-200"
    else if dayType == "run" then "bg-blue-500"
    else if dayType == "strength" then "bg-purple-500"
    else "bg-orange-500"
  }

  /** The background of the icon tile, chosen by the same chain of tests. */
  function IconBackground(dayType: string): (r: string)
    ensures dayType == "rest" ==> r == "bg-gray-100"
    ensures dayType == "run" ==> r == "bg-blue-50"
    ensures dayType == "strength" ==> r == "bg-purple-50"
    ensures r == "bg-orange-50" <==> dayType !in {"rest", "run", "strength"}
  {
    if dayType == "rest" then "bg-gray-100"
    else if dayType == "run" then "bg-blue-50"
    else if dayType == "strength" then "bg-purple-50"
    else "bg-orange-50"
  }

  /** The tone of the whole card: muted for rest days. */
  function CardTone(dayType: string): (r: string)
    ensures r == "bg-gray-50/50" <==> dayType == "rest"
    ensures r == "shadow-sm" <==> dayType != "rest"
  {
    if dayType == "rest" then "bg-gray-50/50" else "shadow-sm"
  }

  /** The accent, icon tile and icon of a day agree on its kind. */
  lemma DayStylesAgree(dayType: string)
    ensures DayAccent(dayType) == "bg-orange-500" <==> IconBackground(dayType) == "bg-orange-50"
    ensures DayAccent(dayType) == "bg-orange-500" <==> TypeIcon(dayType).glyph == ZapGlyph
    ensures DayAccent(dayType) == "bg-gray-200" <==> TypeIcon(dayType).glyph == CoffeeGlyph
  {
  }

  datatype ActivityRow = ActivityRow(name: string, intensity: string, badgeClass: string, details: string, duration: string)

  datatype DayCard = DayCard(
    dayNumber: int,
    title: string,
    tone: string,
    accent: string,
    iconBackground: string,
    icon: IconView,
    rows: seq<ActivityRow>,
    showsPlaceholder: bool,
    tips: seq<string>,
    showsTips: bool)

  /** What one day card shows. */
  function RenderDay(day: WorkoutDay): (c: DayCard)
    ensures c.dayNumber == day.dayNumber && c.title == day.title
    ensures c.tone == CardTone(day.dayType) && c.accent == DayAccent(day.dayType)
    ensures c.iconBackground == IconBackground(day.dayType) && c.icon == TypeIcon(day.dayType)
    ensures c.showsPlaceholder <==> |day.activities| == 0
    ensures c.tips == day.coachTips
    ensures c.showsTips <==> |day.coachTips| > 0
    ensures |c.rows| == |day.activities|
    ensures forall i :: 0 <= i < |c.rows| ==>
              var a := day.activities[i];
              c.rows[i].name == a.name && c.rows[i].intensity == a.intensity
              && c.rows[i].badgeClass == IntensityClass(a.intensity)
              && c.rows[i].details == a.details && c.rows[i].duration == a.duration
  {
    DayCard(
      day.dayNumber, day.title, CardTone(day.dayType), DayAccent(day.dayType),
      IconBackground(day.dayType), TypeIcon(day.dayType),
      seq(|day.activities|, i requires 0 <= i < |day.activities| =>
        var a := day.activities[i];
        ActivityRow(a.name, a.intensity, IntensityClass(a.intensity), a.details, a.duration)),
      |day.activities| == 0,
      day.coachTips,
      |day.coachTips| > 0)
  }

  datatype PlanCard = PlanCard(summary: string, days: seq<DayCard>)

  /** The plan view: the summary header, then one card per day in plan order. */
  function RenderPlan(plan: WeeklyPlan): (v: PlanCard)
    ensures v.summary == plan.weeklySummary
    ensures |v.days| == |plan.days|
    ensures forall i :: 0 <= i < |v.days| ==> v.days[i] == RenderDay(plan.days[i])
  {
    PlanCard(plan.weeklySummary, seq(|plan.days|, i requires 0 <= i < |plan.days| => RenderDay(plan.days[i])))
  }
}
