/**
  * The synthetic data generator: random workplace profiles and the heuristic
  * rule that labels each profile "recommend a Mac" or not.
  *
  * Python's seeded generator is modelled as an infinite stream of values of
  * `random.random()` together with a position in that stream; every call to
  * `random.random()` or `random.choice` consumes the value at the position.
  */
module DataGen {

  /**
    * One draw of the seeded generator, as the integer k behind the value
    * k / 2^53 that `random.random()` returns.
    */
  const RandomScale: int := 0x20_0000_0000_0000
  type Draw = k: int | 0 <= k < RandomScale

  /**
    * The draws k for which `random.random() < p` holds are those below these
    * cuts, computed from the binary doubles that the literals 0.1, 0.6, 0.3
    * and 0.12 denote (see `CutsMatchDoubles`).
    */
  const Cut0p1: int := 900719925474100
  const Cut0p6: int := 5404319552844595
  const Cut0p3: int := 2702159776422298
  const Cut0p12: int := 1080863910568919

  /**
    * `random.random() < p`, with `random.random()` the draw k as k / 2^53 and
    * p the exact binary value of the literal, holds exactly when k is below
    * the literal's cut.
    */
  lemma CutsMatchDoubles(k: Draw)
    ensures (k as real) / 9007199254740992.0 < 3602879701896397.0 / 36028797018963968.0 <==> k < Cut0p1
    ensures (k as real) / 9007199254740992.0 < 5404319552844595.0 / 9007199254740992.0 <==> k < Cut0p6
    ensures (k as real) / 9007199254740992.0 < 5404319552844595.0 / 18014398509481984.0 <==> k < Cut0p3
    ensures (k as real) / 9007199254740992.0 < 1080863910568919.0 / 9007199254740992.0 <==> k < Cut0p12
  {
  }

  /** The role categories; `RoleName` gives the string the dataset holds. */
  datatype Role = Developer | Designer | Marketing | Management | Support | DataScientist
  /** The three-valued sensitivity and mobility categories. */
  datatype Level = Low | Medium | High
  /** The operating-system preference; `NoPreference` is written "none". */
  datatype Os = Mac | Windows | Linux | NoPreference

  /** The domain lists, in the order `random.choice` indexes them. */
  const Roles: seq<Role> := [Developer, Designer, Marketing, Management, Support, DataScientist]
  const OsPref: seq<Os> := [Mac, Windows, Linux, NoPreference]
  const SecurityLevels: seq<Level> := [Low, Medium, High]
  const MobilityLevels: seq<Level> := [Low, Medium, High]
  const BudgetLevels: seq<Level> := [Low, Medium, High]

  /** Roles whose office flag is forced to 1 without a draw. */
  const OfficeRoles: seq<Role> := [Management, Marketing, Support]

  function RoleName(r: Role): string
  {
    match r
    case Developer => "Developer"
    case Designer => "Designer"
    case Marketing => "Marketing"
    case Management => "Management"
    case Support => "Support"
    case DataScientist => "DataScientist"
  }

  function LevelName(l: Level): string
  {
    match l
    case Low => "low"
    case Medium => "medium"
    case High => "high"
  }

  function OsName(o: Os): string
  {
    match o
    case Mac => "mac"
    case Windows => "windows"
    case Linux => "linux"
    case NoPreference => "none"
  }

  /**
    * The datatypes stand for the string lists faithfully: each list holds
    * every value of its type, the names read back as the lists are written,
    * and distinct values have distinct names.
    */
  lemma DomainListsAsWritten()
    ensures forall r: Role :: r in Roles
    ensures forall l: Level :: l in MobilityLevels && l in SecurityLevels && l in BudgetLevels
    ensures forall o: Os :: o in OsPref
    ensures [RoleName(Roles[0]), RoleName(Roles[1]), RoleName(Roles[2]),
             RoleName(Roles[3]), RoleName(Roles[4]), RoleName(Roles[5])]
         == ["Developer", "Designer", "Marketing", "Management", "Support", "DataScientist"]
    ensures [LevelName(MobilityLevels[0]), LevelName(MobilityLevels[1]), LevelName(MobilityLevels[2])]
         == ["low", "medium", "high"]
    ensures [LevelName(SecurityLevels[0]), LevelName(SecurityLevels[1]), LevelName(SecurityLevels[2])]
         == ["low", "medium", "high"]
    ensures [LevelName(BudgetLevels[0]), LevelName(BudgetLevels[1]), LevelName(BudgetLevels[2])]
         == ["low", "medium", "high"]
    ensures [OsName(OsPref[0]), OsName(OsPref[1]), OsName(OsPref[2]), OsName(OsPref[3])]
         == ["mac", "windows", "linux", "none"]
    ensures forall a: Role, b: Role :: RoleName(a) == RoleName(b) ==> a == b
    ensures forall a: Level, b: Level :: LevelName(a) == LevelName(b) ==> a == b
    ensures forall a: Os, b: Os :: OsName(a) == OsName(b) ==> a == b
  {
    forall r: Role ensures r in Roles {
      match r
      case Developer => assert Roles[0] == r;
      case Designer => assert Roles[1] == r;
      case Marketing => assert Roles[2] == r;
      case Management => assert Roles[3] == r;
      case Support => assert Roles[4] == r;
      case DataScientist => assert Roles[5] == r;
    }
    forall l: Level ensures l in MobilityLevels && l in SecurityLevels && l in BudgetLevels {
      match l
      case Low => assert MobilityLevels[0] == l;
      case Medium => assert MobilityLevels[1] == l;
      case High => assert MobilityLevels[2] == l;
    }
    forall o: Os ensures o in OsPref {
      match o
      case Mac => assert OsPref[0] == o;
      case Windows => assert OsPref[1] == o;
      case Linux => assert OsPref[2] == o;
      case NoPreference => assert OsPref[3] == o;
    }
  }

  /** The columns of the written dataset, in the order the row dictionary lists them. */
  const FeatureColumns: seq<string> :=
    ["role", "uses_design_tools", "uses_office_apps", "requires_windows_only_apps",
     "mobility", "security_sensitivity", "budget_sensitivity", "preferred_os"]

  /** One generated row; the indicator fields and the label are Python ints. */
  datatype Row = Row(
    role: Role,
    usesDesignTools: int,
    usesOfficeApps: int,
    requiresWindowsOnlyApps: int,
    mobility: Level,
    securitySensitivity: Level,
    budgetSensitivity: Level,
    preferredOs: Os,
    recommendMac: int)

  /**
    * Every indicator and the label are 0 or 1. (That every categorical field
    * is a member of its list is carried by its type: each list holds every
    * value of its datatype.)
    */
  predicate WellFormed(r: Row)
  {
    && (r.usesDesignTools == 0 || r.usesDesignTools == 1)
    && (r.usesOfficeApps == 0 || r.usesOfficeApps == 1)
    && (r.requiresWindowsOnlyApps == 0 || r.requiresWindowsOnlyApps == 1)
    && (r.recommendMac == 0 || r.recommendMac == 1)
  }

  /** The index `random.choice` takes from a list of length n for draw k: k reduced modulo n. */
  function ChoiceIndex(k: nat, n: nat): (i: nat)
    requires n > 0
    ensures i < n
  {
    k % n
  }

  /** `random.choice(items)` for draw k. */
  function Choice<T>(items: seq<T>, k: Draw): (x: T)
    requires |items| > 0
    ensures x in items
  {
    items[ChoiceIndex(k, |items|)]
  }

  /**
    * The score of the heuristic label rule, counted in halves so that it is
    * an integer: the weights +2, -3, +2, +1, +0.5, -1 become 4, -6, 4, 2, 1, -2.
    * An indicator counts when it is non-zero (Python truthiness).
    */
  function DoubledScore(r: Row): (s: int)
    ensures -8 <= s <= 11
  {
    (if r.usesDesignTools != 0 then 4 else 0)
    + (if r.requiresWindowsOnlyApps != 0 then -6 else 0)
    + (if r.preferredOs == Mac then 4 else 0)
    + (if r.mobility == High then 2 else 0)
    + (if r.securitySensitivity == High then 1 else 0)
    + (if r.budgetSensitivity == Low then -2 else 0)
  }

  /**
    * The label of a row: 1 exactly when the score exceeds 0.5, that is when
    * the doubled score exceeds 1. The second ensures is the rule's full
    * truth table; the security level never decides the label.
    */
  function RecommendMac(r: Row): (l: int)
    ensures l == 0 || l == 1
    ensures l == 1 <==>
      if r.requiresWindowsOnlyApps != 0 then
        r.usesDesignTools != 0 && r.preferredOs == Mac && (r.budgetSensitivity == Low ==> r.mobility == High)
      else
        r.usesDesignTools != 0 || r.preferredOs == Mac || (r.mobility == High && r.budgetSensitivity != Low)
  {
    if DoubledScore(r) > 1 then 1 else 0
  }

  /**
    * The design flag and the position after it: forced for a Designer,
    * otherwise one draw below 0.1.
    */
  function DesignFlag(stream: nat -> Draw, role: Role, p: nat): (res: (int, nat))
    ensures res.0 == 0 || res.0 == 1
    ensures res.0 == 1 <==> role == Designer || stream(p) < Cut0p1
    ensures res.1 == if role == Designer then p else p + 1
  {
    if role == Designer then (1, p) else (if stream(p) < Cut0p1 then 1 else 0, p + 1)
  }

  /** The office flag: forced for the office roles, otherwise one draw below 0.6. */
  function OfficeFlag(stream: nat -> Draw, role: Role, p: nat): (res: (int, nat))
    ensures res.0 == 0 || res.0 == 1
    ensures res.0 == 1 <==> role in OfficeRoles || stream(p) < Cut0p6
    ensures res.1 == if role in OfficeRoles then p else p + 1
  {
    if role in OfficeRoles then (1, p) else (if stream(p) < Cut0p6 then 1 else 0, p + 1)
  }

  /**
    * The windows-only flag: `role == Support and random() < 0.3` draws only
    * for Support; when that test fails, the `else` branch draws once more
    * and compares with 0.12.
    */
  function WindowsFlag(stream: nat -> Draw, role: Role, p: nat): (res: (int, nat))
    ensures res.0 == 0 || res.0 == 1
    ensures res.1 == p + 1 || res.1 == p + 2
    ensures res.1 == p + 2 <==> role == Support && stream(p) >= Cut0p3
    ensures res.0 == 1 <==>
      (role == Support && (stream(p) < Cut0p3 || stream(p + 1) < Cut0p12))
      || (role != Support && stream(p) < Cut0p12)
  {
    if role == Support && stream(p) < Cut0p3 then (1, p + 1)
    else if role == Support then (if stream(p + 1) < Cut0p12 then 1 else 0, p + 2)
    else (if stream(p) < Cut0p12 then 1 else 0, p + 1)
  }

  /** A row with its label field set by the heuristic rule. */
  function Labelled(r: Row): (res: Row)
    ensures res == r.(recommendMac := res.recommendMac)
    ensures res.recommendMac == 0 || res.recommendMac == 1
    ensures res.recommendMac == 1 <==> DoubledScore(r) > 1
  {
    r.(recommendMac := RecommendMac(r))
  }

  /**
    * The fields `make_row` draws when the generator stands at position pos of
    * the stream (the label still 0), and the position it leaves the
    * generator at.
    */
  function DrawnAt(stream: nat -> Draw, pos: nat): (res: (Row, nat))
    ensures res.0.role == Choice(Roles, stream(pos)) && res.0.recommendMac == 0
    ensures pos + 7 <= res.1 <= pos + 8
  {
    var role := Choice(Roles, stream(pos));
    var design := DesignFlag(stream, role, pos + 1);
    var office := OfficeFlag(stream, role, design.1);
    var windowsOnly := WindowsFlag(stream, role, office.1);
    var p := windowsOnly.1;
    (Row(role, design.0, office.0, windowsOnly.0,
         Choice(MobilityLevels, stream(p)), Choice(SecurityLevels, stream(p + 1)),
         Choice(BudgetLevels, stream(p + 2)), Choice(OsPref, stream(p + 3)), 0),
     p + 4)
  }

  /** `DrawnAt` assembled from its stages, for the caller that draws them one by one. */
  lemma DrawnAtFrom(stream: nat -> Draw, pos: nat, r: Row, p4: nat)
    requires r.role == Choice(Roles, stream(pos)) && r.recommendMac == 0
    requires var d := DesignFlag(stream, r.role, pos + 1);
      var o := OfficeFlag(stream, r.role, d.1);
      var w := WindowsFlag(stream, r.role, o.1);
      r.usesDesignTools == d.0 && r.usesOfficeApps == o.0 && r.requiresWindowsOnlyApps == w.0 && p4 == w.1
    requires r.mobility == Choice(MobilityLevels, stream(p4)) && r.securitySensitivity == Choice(SecurityLevels, stream(p4 + 1))
    requires r.budgetSensitivity == Choice(BudgetLevels, stream(p4 + 2)) && r.preferredOs == Choice(OsPref, stream(p4 + 3))
    ensures DrawnAt(stream, pos) == (r, p4 + 4)
  {
  }

  /** The labelled row `make_row` returns from position pos, and the position after it. */
  function RowAt(stream: nat -> Draw, pos: nat): (res: (Row, nat))
    ensures res.0.recommendMac == 1 <==> DoubledScore(res.0) > 1
    ensures pos + 7 <= res.1 <= pos + 8
  {
    var drawn := DrawnAt(stream, pos);
    (Labelled(drawn.0), drawn.1)
  }

  /** `make_row` as a step from a stream position to the row and the next position. */
  function RowStep(stream: nat -> Draw): nat -> (Row, nat)
  {
    p => RowAt(stream, p)
  }

  /**
    * n calls of a row builder, each starting where the previous one left
    * the stream: the rows in order, and the position after the last.
    */
  function Repeat(step: nat -> (Row, nat), pos: nat, n: nat): (res: (seq<Row>, nat))
    ensures |res.0| == n
    decreases n
  {
    if n == 0 then ([], pos)
    else
      var first := step(pos);
      var rest := Repeat(step, first.1, n - 1);
      ([first.0] + rest.0, rest.1)
  }

  /** Row i of n repeated steps is the step taken from where the first i steps left the stream. */
  lemma {:induction false} RepeatIsStepAfterPrefix(step: nat -> (Row, nat), pos: nat, n: nat, i: nat)
    requires i < n
    ensures Repeat(step, pos, n).0[i] == step(Repeat(step, pos, i).1).0
    decreases n
  {
    if i > 0 {
      RepeatIsStepAfterPrefix(step, step(pos).1, n - 1, i - 1);
    }
  }

  /** n + 1 repeated steps are n steps followed by one more from where they left the stream. */
  lemma {:induction false} RepeatSnoc(step: nat -> (Row, nat), pos: nat, n: nat)
    ensures var prefix := Repeat(step, pos, n);
      Repeat(step, pos, n + 1) == (prefix.0 + [step(prefix.1).0], step(prefix.1).1)
    decreases n
  {
    if n > 0 {
      var next := step(pos).1;
      RepeatSnoc(step, next, n - 1);
      var inner := Repeat(step, next, n - 1);
      assert Repeat(step, pos, n + 1) == ([step(pos).0] + Repeat(step, next, n).0, Repeat(step, next, n).1);
      assert Repeat(step, pos, n) == ([step(pos).0] + inner.0, inner.1);
      assert [step(pos).0] + (inner.0 + [step(inner.1).0]) == ([step(pos).0] + inner.0) + [step(inner.1).0];
    } else {
      assert Repeat(step, pos, 1).0 == [step(pos).0] + [];
      assert [step(pos).0] + [] == [] + [step(pos).0];
    }
  }

  /** Steps that each consume 7 or 8 draws consume between 7n and 8n in n repetitions. */
  lemma {:induction false} RepeatDraws(step: nat -> (Row, nat), pos: nat, n: nat)
    requires forall p: nat :: p + 7 <= step(p).1 <= p + 8
    ensures pos + 7 * n <= Repeat(step, pos, n).1 <= pos + 8 * n
    decreases n
  {
    if n > 0 {
      RepeatDraws(step, step(pos).1, n - 1);
    }
  }

  /** The rows `generate(n)` builds from position pos, and the position after them. */
  function RowsAt(stream: nat -> Draw, pos: nat, n: nat): (res: (seq<Row>, nat))
    ensures |res.0| == n
    ensures pos + 7 * n <= res.1 <= pos + 8 * n
  {
    forall p: nat ensures p + 7 <= RowStep(stream)(p).1 <= p + 8 {
      assert RowStep(stream)(p) == RowAt(stream, p);
    }
    RepeatDraws(RowStep(stream), pos, n);
    Repeat(RowStep(stream), pos, n)
  }

  /** One `make_row` yields 0/1 indicators and the label the rule gives its fields. */
  lemma RowAtFacts(stream: nat -> Draw, pos: nat)
    ensures WellFormed(RowAt(stream, pos).0)
    ensures RowAt(stream, pos).0.recommendMac == RecommendMac(RowAt(stream, pos).0)
  {
  }

  /**
    * Row i of `generate(n)` is exactly what `make_row` builds after the
    * first i rows have been drawn.
    */
  lemma RowsAtIsRowAfterPrefix(stream: nat -> Draw, pos: nat, n: nat, i: nat)
    requires i < n
    ensures RowsAt(stream, pos, n).0[i] == RowAt(stream, RowsAt(stream, pos, i).1).0
  {
    RepeatIsStepAfterPrefix(RowStep(stream), pos, n, i);
  }

  /** Every row of `generate(n)` is well formed and carries the label the rule gives it. */
  lemma GeneratedRowsWellFormed(stream: nat -> Draw, pos: nat, n: nat)
    ensures forall i :: 0 <= i < n ==>
      WellFormed(RowsAt(stream, pos, n).0[i]) && RowsAt(stream, pos, n).0[i].recommendMac == RecommendMac(RowsAt(stream, pos, n).0[i])
  {
    forall i | 0 <= i < n
      ensures WellFormed(RowsAt(stream, pos, n).0[i]) && RowsAt(stream, pos, n).0[i].recommendMac == RecommendMac(RowsAt(stream, pos, n).0[i])
    {
      RowsAtIsRowAfterPrefix(stream, pos, n, i);
      RowAtFacts(stream, RowsAt(stream, pos, i).1);
    }
  }

  // ---- The indicator rules and the draws they consume ----

  /** Designers always use design tools; the office roles always use office apps. */
  lemma ForcedIndicators(stream: nat -> Draw, pos: nat)
    ensures var row := RowAt(stream, pos).0;
      && (row.role == Designer ==> row.usesDesignTools == 1)
      && (row.role in OfficeRoles ==> row.usesOfficeApps == 1)
  {
  }

  /**
    * How many draws a row consumes, by role: a Designer takes no draw for the
    * design flag, an office role none for the office flag, and a Support row
    * takes a second draw for the windows flag exactly when its first one
    * failed the 0.3 test. Every row therefore takes 7 or 8 draws.
    */
  lemma DrawsPerRow(stream: nat -> Draw, pos: nat)
    ensures var (row, next) := RowAt(stream, pos);
      next - pos ==
        (if row.role == Designer || row.role in OfficeRoles then 7 else 8)
        + (if row.role == Support && stream(pos + 2) >= Cut0p3 then 1 else 0)
  {
  }

  /**
    * The windows-only flag: a Support row gets it when its first draw is
    * below 0.3 or, failing that, its second below 0.12; any other role when
    * its single draw (after the role, design and office draws it takes) is
    * below 0.12.
    */
  lemma WindowsOnlyRule(stream: nat -> Draw, pos: nat)
    ensures var row := RowAt(stream, pos).0;
      var p3 := pos + 1 + (if row.role == Designer then 0 else 1) + (if row.role in OfficeRoles then 0 else 1);
      && (row.role == Support ==> (row.requiresWindowsOnlyApps == 1 <==> stream(p3) < Cut0p3 || stream(p3 + 1) < Cut0p12))
      && (row.role != Support ==> (row.requiresWindowsOnlyApps == 1 <==> stream(p3) < Cut0p12))
  {
  }

  // ---- The label rule ----

  /** Only the six weighted fields enter the score; the role and the office flag do not. */
  lemma ScoreIgnoresOtherFields(a: Row, b: Row)
    requires a.usesDesignTools == b.usesDesignTools && a.requiresWindowsOnlyApps == b.requiresWindowsOnlyApps
    requires a.preferredOs == b.preferredOs && a.mobility == b.mobility
    requires a.securitySensitivity == b.securitySensitivity && a.budgetSensitivity == b.budgetSensitivity
    ensures DoubledScore(a) == DoubledScore(b) && RecommendMac(a) == RecommendMac(b)
  {
  }

  /** A Designer without windows-only apps scores at least 2 - 1 = 1 and is labelled 1. */
  lemma DesignerWithoutWindowsIsMac(r: Row)
    requires WellFormed(r) && r.role == Designer && r.usesDesignTools == 1 && r.requiresWindowsOnlyApps == 0
    ensures DoubledScore(r) >= 2
    ensures RecommendMac(r) == 1
  {
  }

  /** Windows-only apps without design tools score at most -3 + 2 + 1 + 0.5 = 0.5 and are labelled 0. */
  lemma WindowsWithoutDesignIsNotMac(r: Row)
    requires r.requiresWindowsOnlyApps == 1 && r.usesDesignTools == 0
    ensures DoubledScore(r) <= 1
    ensures RecommendMac(r) == 0
  {
  }

  /** The same two facts for every row the generator produces. */
  lemma GeneratedLabelExtremes(stream: nat -> Draw, pos: nat)
    ensures var row := RowAt(stream, pos).0;
      && (row.role == Designer && row.requiresWindowsOnlyApps == 0 ==> row.recommendMac == 1)
      && (row.requiresWindowsOnlyApps == 1 && row.usesDesignTools == 0 ==> row.recommendMac == 0)
  {
    var row := RowAt(stream, pos).0;
    RowAtFacts(stream, pos);
    if row.role == Designer && row.requiresWindowsOnlyApps == 0 {
      DesignerWithoutWindowsIsMac(row);
    }
    if row.requiresWindowsOnlyApps == 1 && row.usesDesignTools == 0 {
      WindowsWithoutDesignIsNotMac(row);
    }
  }

  // ---- The generator as the source runs it ----

  /** The module-level generator that `random.seed(42)` initialises. */
  class Rng {
    /** The values the seeded generator returns, in order. */
    const stream: nat -> Draw
    /** How many values have been consumed so far. */
    var pos: nat

    constructor (seeded: nat -> Draw)
      ensures stream == seeded && pos == 0
    {
      stream := seeded;
      pos := 0;
    }

    /** `random.random()`. */
    method Random() returns (u: Draw)
      modifies this
      ensures u == stream(old(pos)) && pos == old(pos) + 1
    {
      u := stream(pos);
      pos := pos + 1;
    }

    /** `random.choice(items)`. */
    method Choose<T>(items: seq<T>) returns (x: T)
      requires |items| > 0
      modifies this
      ensures x == Choice(items, stream(old(pos))) && pos == old(pos) + 1
    {
      x := Choice(items, stream(pos));
      pos := pos + 1;
    }
  }

  /**
    * The three indicator draws of `make_row` for a row of the given role,
    * taken in the source's order with its short-circuit evaluation.
    */
  method DrawIndicators(rng: Rng, role: Role) returns (design: int, office: int, windowsOnly: int)
    modifies rng
    ensures var d := DesignFlag(rng.stream, role, old(rng.pos));
      var o := OfficeFlag(rng.stream, role, d.1);
      var w := WindowsFlag(rng.stream, role, o.1);
      design == d.0 && office == o.0 && windowsOnly == w.0 && rng.pos == w.1
  {
    ghost var start := rng.pos;
    design := 1;
    if role != Designer {
      var u := rng.Random();
      design := if u < Cut0p1 then 1 else 0;
    }
    assert (design, rng.pos) == DesignFlag(rng.stream, role, start);
    office := 1;
    if role !in OfficeRoles {
      var u := rng.Random();
      office := if u < Cut0p6 then 1 else 0;
    }
    assert (office, rng.pos) == OfficeFlag(rng.stream, role, DesignFlag(rng.stream, role, start).1);
    ghost var p3 := rng.pos;
    var u := rng.Random();
    if role == Support && u < Cut0p3 {
      windowsOnly := 1;
    } else {
      if role == Support {
        u := rng.Random();
      }
      windowsOnly := if u < Cut0p12 then 1 else 0;
    }
    assert (windowsOnly, rng.pos) == WindowsFlag(rng.stream, role, p3);
  }

  /**
    * The drawing half of `make_row`: the role, the indicators and the four
    * categories, in the source's order; the label is still 0.
    */
  method DrawFields(rng: Rng) returns (drawn: Row)
    modifies rng
    ensures (drawn, rng.pos) == DrawnAt(rng.stream, old(rng.pos))
  {
    ghost var start := rng.pos;
    var role := rng.Choose(Roles);
    var design, office, windowsOnly := DrawIndicators(rng, role);
    ghost var p4 := rng.pos;
    var mobility, security, budget, os := DrawCategories(rng);
    drawn := Row(role, design, office, windowsOnly, mobility, security, budget, os, 0);
    DrawnAtFrom(rng.stream, start, drawn, p4);
  }

  /** The four `random.choice` calls for the categorical fields, in the source's order. */
  method DrawCategories(rng: Rng) returns (mobility: Level, security: Level, budget: Level, os: Os)
    modifies rng
    ensures rng.pos == old(rng.pos) + 4
    ensures mobility == Choice(MobilityLevels, rng.stream(old(rng.pos)))
    ensures security == Choice(SecurityLevels, rng.stream(old(rng.pos) + 1))
    ensures budget == Choice(BudgetLevels, rng.stream(old(rng.pos) + 2))
    ensures os == Choice(OsPref, rng.stream(old(rng.pos) + 3))
  {
    mobility := rng.Choose(MobilityLevels);
    security := rng.Choose(SecurityLevels);
    budget := rng.Choose(BudgetLevels);
    os := rng.Choose(OsPref);
  }

  /** `make_row`: the fields drawn in order, then the score and the label. */
  method MakeRow(rng: Rng) returns (row: Row)
    modifies rng
    ensures (row, rng.pos) == RowAt(rng.stream, old(rng.pos))
    ensures WellFormed(row)
  {
    ghost var start := rng.pos;
    var drawn := DrawFields(rng);
    row := LabelRow(drawn);
    RowAtFacts(rng.stream, start);
  }

  /**
    * The score and label lines of `make_row`: the doubled score accumulated
    * one weight at a time in the source's order, then compared with the
    * threshold.
    */
  method LabelRow(r: Row) returns (labelled: Row)
    ensures labelled == Labelled(r)
    ensures labelled.recommendMac == 1 <==> DoubledScore(r) > 1
  {
    var score := 0;
    if r.usesDesignTools != 0 { score := score + 4; }
    if r.requiresWindowsOnlyApps != 0 { score := score - 6; }
    if r.preferredOs == Mac { score := score + 4; }
    if r.mobility == High { score := score + 2; }
    if r.securitySensitivity == High { score := score + 1; }
    if r.budgetSensitivity == Low { score := score - 2; }
    labelled := r.(recommendMac := if score > 1 then 1 else 0);
  }

  /** `generate(n)`: n rows, each built by `make_row` in turn. */
  method Generate(rng: Rng, n: nat) returns (rows: seq<Row>)
    modifies rng
    ensures (rows, rng.pos) == RowsAt(rng.stream, old(rng.pos), n)
    ensures |rows| == n
  {
    rows := [];
    var i := 0;
    ghost var start := rng.pos;
    while i < n
      invariant 0 <= i <= n
      invariant (rows, rng.pos) == RowsAt(rng.stream, start, i)
    {
      RepeatSnoc(RowStep(rng.stream), start, i);
      var row := MakeRow(rng);
      rows := rows + [row];
      i := i + 1;
    }
  }
}
