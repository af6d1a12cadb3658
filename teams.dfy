/** The team records the cup tie-breaker edits and resolves (src/App.jsx). */
module Teams {
  import opened Wrappers

  /** One line of a team card's scorer or conceder breakdown. */
  datatype Contribution = Contribution(name: string, count: int)

  /** A team as the session holds it. The three numeric fields are `None` while
      their input box holds the empty text, and `Some(v)` when it holds anything
      else, `v` being what `Number(text) || 0` makes of that text. */
  datatype Team = Team(
    id: string,
    name: string,
    score: Option<int>,
    goals: Option<int>,
    conceded: Option<int>,
    value: string,
    scorers: seq<Contribution>,
    conceders: seq<Contribution>)

  /** The resolver's reading of a numeric field (`Number(x) || 0`): an empty
      field counts as 0, an entered number as itself. */
  function Coerce(field: Option<int>): (n: int)
    ensures field.None? ==> n == 0
    ensures field.Some? ==> n == field.value
  {
    field.GetOr(0)
  }

  function DigitChar(d: nat): (c: char)
    requires d < 10
    ensures '0' <= c <= '9' && c as int - '0' as int == d
  {
    ('0' as int + d) as char
  }

  /** A blank team labelled "Team <number>". */
  function BlankTeam(number: nat): (t: Team)
    requires 1 <= number <= 9
    ensures t.name == "Team " + [DigitChar(number)]
    ensures t.id == "" && t.value == ""
    ensures t.score.None? && t.goals.None? && t.conceded.None?
    ensures t.scorers == [] && t.conceders == []
  {
    Team("", "Team " + [DigitChar(number)], None, None, None, "", [], [])
  }

  /** The two teams a fresh or reset session starts with. */
  function DefaultTeams(): (ts: seq<Team>)
    ensures |ts| == 2 && ts[0] == BlankTeam(1) && ts[1] == BlankTeam(2)
  {
    [BlankTeam(1), BlankTeam(2)]
  }

  /** The editable fields of a team card. */
  datatype Field = Id | Name | Score | Goals | Conceded | Value

  /** `updateTeam(index, field, value)`: a field together with its new content. */
  datatype Edit =
    | SetId(text: string)
    | SetName(text: string)
    | SetScore(entry: Option<int>)
    | SetGoals(entry: Option<int>)
    | SetConceded(entry: Option<int>)
    | SetValue(text: string)

  function FieldOf(e: Edit): Field {
    match e
    case SetId(_) => Id
    case SetName(_) => Name
    case SetScore(_) => Score
    case SetGoals(_) => Goals
    case SetConceded(_) => Conceded
    case SetValue(_) => Value
  }

  /** `t` carries the content `e` writes. */
  predicate Holds(t: Team, e: Edit) {
    match e
    case SetId(x) => t.id == x
    case SetName(x) => t.name == x
    case SetScore(x) => t.score == x
    case SetGoals(x) => t.goals == x
    case SetConceded(x) => t.conceded == x
    case SetValue(x) => t.value == x
  }

  /** `a` and `b` agree on every field except possibly `f`. */
  predicate SameExcept(a: Team, b: Team, f: Field) {
    && (f == Id || a.id == b.id)
    && (f == Name || a.name == b.name)
    && (f == Score || a.score == b.score)
    && (f == Goals || a.goals == b.goals)
    && (f == Conceded || a.conceded == b.conceded)
    && (f == Value || a.value == b.value)
    && a.scorers == b.scorers
    && a.conceders == b.conceders
  }

  /** `{ ...team, [field]: value }`: the edited field takes the new content and
      nothing else changes. */
  function ApplyEdit(t: Team, e: Edit): (r: Team)
    ensures Holds(r, e) && SameExcept(t, r, FieldOf(e))
  {
    match e
    case SetId(x) => t.(id := x)
    case SetName(x) => t.(name := x)
    case SetScore(x) => t.(score := x)
    case SetGoals(x) => t.(goals := x)
    case SetConceded(x) => t.(conceded := x)
    case SetValue(x) => t.(value := x)
  }

  /** The contract of ApplyEdit pins its result down: any team that carries the
      edit and otherwise agrees with `t` is the edited team. */
  lemma EditIsDetermined(t: Team, e: Edit, r: Team)
    requires Holds(r, e) && SameExcept(t, r, FieldOf(e))
    ensures r == ApplyEdit(t, e)
  {
    match e
    case SetId(x) =>
    case SetName(x) =>
    case SetScore(x) =>
    case SetGoals(x) =>
    case SetConceded(x) =>
    case SetValue(x) =>
  }
}
