/** The metric tile of the dashboard (src/components/dashboard/MetricCard.tsx): the colour of the
    value, the percent suffix, and the change badge with its trend icon and colour. Colours are the
    Tailwind classes the tile applies; numbers are shown as they are, their decimal rendering is not
    modelled. */
module MetricCard {
  import opened Wrappers
  import opened Text

  datatype Trend = Up | Down | Neutral

  datatype Metric = Metric(id: string, title: string, value: real, change: real, trend: Trend, unit: Option<string>)

  /** `text-green-500`, `text-yellow-500`, `text-red-500`, `text-gray-500`, or no class. */
  datatype Colour = Green | Yellow | Red | Grey | NoColour

  datatype Icon = ArrowUp | ArrowDown | Minus

  /** `getValueColor`: "System Health" is green from 90, yellow from 70 and red below; "Active
      Threats" is green at 0, yellow up to 5 and red above; any other tile has no colour. */
  function ValueColour(m: Metric): (c: Colour)
    ensures m.title == "System Health" ==>
      (c == Green <==> m.value >= 90.0) && (c == Yellow <==> 70.0 <= m.value < 90.0) && (c == Red <==> m.value < 70.0)
    ensures m.title == "Active Threats" ==>
      (c == Green <==> m.value == 0.0) && (c == Yellow <==> m.value != 0.0 && m.value <= 5.0)
      && (c == Red <==> m.value > 5.0)
    ensures m.title != "System Health" && m.title != "Active Threats" ==> c == NoColour
  {
    if m.title == "System Health" then
      if m.value >= 90.0 then Green else if m.value >= 70.0 then Yellow else Red
    else if m.title == "Active Threats" then
      if m.value == 0.0 then Green else if m.value <= 5.0 then Yellow else Red
    else NoColour
  }

  function Severity(c: Colour): nat
  {
    match c
    case Green => 0
    case Yellow => 1
    case Red => 2
    case _ => 0
  }

  /** More health is never a worse colour, and more threats never a better one; a negative threat
      count is the one exception: it is yellow, not green. */
  lemma ValueColourMonotone(m: Metric, v: real)
    ensures m.title == "System Health" && m.value <= v ==> Severity(ValueColour(m)) >= Severity(ValueColour(m.(value := v)))
    ensures m.title == "Active Threats" && 0.0 <= m.value <= v ==>
      Severity(ValueColour(m)) <= Severity(ValueColour(m.(value := v)))
    ensures m.title == "Active Threats" && m.value < 0.0 ==> ValueColour(m) == Yellow
  {
  }

  /** What `formatValue` renders: the number with or without a `%` after it. */
  datatype Display = Percent(value: real) | Plain(value: real)

  /** `formatValue`: a `%` is added when the unit is `%` or the title mentions health or load. */
  function FormatValue(m: Metric): (d: Display)
    ensures d.value == m.value
    ensures d.Percent? <==> m.unit == Some("%") || Contains(m.title, "Health") || Contains(m.title, "Load")
  {
    if m.unit == Some("%") || Contains(m.title, "Health") || Contains(m.title, "Load") then Percent(m.value)
    else Plain(m.value)
  }

  /** The health tile always shows a percentage, whatever its unit. */
  lemma SystemHealthIsPercent(m: Metric)
    requires m.title == "System Health"
    ensures FormatValue(m).Percent?
  {
    ContainsAt("Health", "Health", 0);
    ContainsExtended("System ", "Health", "", "Health");
    assert "System " + "Health" + "" == "System Health";
  }

  /** `getTrendColor` and `getTrendIcon`: up is green, down is red, anything else grey. */
  function TrendColour(t: Trend): (c: Colour)
    ensures c == Green <==> t == Up
    ensures c == Red <==> t == Down
    ensures c == Grey <==> t == Neutral
  {
    match t
    case Up => Green
    case Down => Red
    case Neutral => Grey
  }

  function TrendIcon(t: Trend): (i: Icon)
    ensures i == ArrowUp <==> t == Up
    ensures i == ArrowDown <==> t == Down
    ensures i == Minus <==> t == Neutral
  {
    match t
    case Up => ArrowUp
    case Down => ArrowDown
    case Neutral => Minus
  }

  datatype Badge = Badge(icon: Icon, colour: Colour, magnitude: real)

  /** The change badge: hidden when the change is 0, otherwise the size of the change, with the trend's
      icon and colour; the sign of the change itself is not shown. */
  function ChangeBadge(m: Metric): (b: Option<Badge>)
    ensures b.None? <==> m.change == 0.0
    ensures b.Some? ==> b.value.magnitude > 0.0 && (b.value.magnitude == m.change || b.value.magnitude == -m.change)
    ensures b.Some? ==> b.value.icon == TrendIcon(m.trend) && b.value.colour == TrendColour(m.trend)
  {
    if m.change == 0.0 then None
    else Some(Badge(TrendIcon(m.trend), TrendColour(m.trend), if m.change < 0.0 then -m.change else m.change))
  }

  /** Opposite changes show the same badge: the arrow comes from the trend, not from the sign. */
  lemma BadgeIgnoresSign(m: Metric)
    ensures ChangeBadge(m) == ChangeBadge(m.(change := -m.change))
  {
  }
}
