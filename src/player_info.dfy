/** `PlayerInfo`: the derived player predicates and the `GameMode` vocabulary. */
module PlayerInfo {
  import opened Text
  import Search

  /** Sessions shorter than five minutes count as new. */
  const NewPlayerSessionMillis: int := 300000

  predicate IsNewPlayer(sessionTime: int)
  {
    sessionTime < NewPlayerSessionMillis
  }

  predicate IsLowHealth(health: real, maxHealth: real)
  {
    health <= maxHealth * 0.2
  }

  predicate IsCriticalHealth(health: real, maxHealth: real)
  {
    health <= maxHealth * 0.1
  }

  /** Three hunger bars or fewer. */
  predicate IsHungry(foodLevel: int)
  {
    foodLevel <= 6
  }

  /** Food level as a share of the full bar of 20, in percent. */
  function FoodPercentage(foodLevel: int): (p: real)
    ensures p == 5.0 * foodLevel as real
  {
    (foodLevel as real / 20.0) * 100.0
  }

  /** With a non-negative maximum, critical health is also low health. */
  lemma CriticalHealthIsLowHealth(health: real, maxHealth: real)
    requires maxHealth >= 0.0
    requires IsCriticalHealth(health, maxHealth)
    ensures IsLowHealth(health, maxHealth)
  {
  }

  datatype GameMode = Survival | Creative | Adventure | Spectator | Unknown

  const AllGameModes: seq<GameMode> := [Survival, Creative, Adventure, Spectator, Unknown]

  function GameModeOrdinal(m: GameMode): (i: nat)
    ensures i < |AllGameModes| && AllGameModes[i] == m
  {
    match m
    case Survival => 0 case Creative => 1 case Adventure => 2 case Spectator => 3 case Unknown => 4
  }

  function Name(m: GameMode): string
  {
    match m
    case Survival => "survival"
    case Creative => "creative"
    case Adventure => "adventure"
    case Spectator => "spectator"
    case Unknown => "unknown"
  }

  function ShortName(m: GameMode): string
  {
    match m
    case Survival => "S"
    case Creative => "C"
    case Adventure => "A"
    case Spectator => "SP"
    case Unknown => "?"
  }

  predicate NamedBy(m: GameMode, lowerName: string)
  {
    Name(m) == lowerName || Lower(ShortName(m)) == lowerName
  }

  lemma NoModeMatchInValuesMeansNoMatch(lowerName: string)
    requires forall j :: 0 <= j < |AllGameModes| ==> !NamedBy(AllGameModes[j], lowerName)
    ensures forall m :: !NamedBy(m, lowerName)
  {
    forall m ensures !NamedBy(m, lowerName) {
      assert AllGameModes[GameModeOrdinal(m)] == m;
    }
  }

  /**
   * `GameMode.fromName`: the first mode whose name, or lower-cased short name, equals the
   * lower-cased input; UNKNOWN when none does.
   */
  function FromName(name: string): (m: GameMode)
    ensures NamedBy(m, Lower(name)) || (m == Unknown && forall u :: !NamedBy(u, Lower(name)))
  {
    var lower := Lower(name);
    match Search.FirstIndex(AllGameModes, (u: GameMode) => NamedBy(u, lower))
    case Some(i) => AllGameModes[i]
    case None =>
      NoModeMatchInValuesMeansNoMatch(lower);
      Unknown
  }

  /** No lower-cased string names two modes. */
  lemma NamesDistinct(a: GameMode, b: GameMode, lowerName: string)
    requires NamedBy(a, lowerName) && NamedBy(b, lowerName)
    ensures a == b
  {
    assert Lower("S") == "s" && Lower("C") == "c" && Lower("A") == "a" && Lower("SP") == "sp" && Lower("?") == "?";
  }

  /** Every mode's name leads back to it. */
  lemma {:induction false} FromNameOfName(m: GameMode)
    ensures FromName(Name(m)) == m
  {
    assert Lower(Name(m)) == Name(m) by {
      assert forall i :: 0 <= i < |Name(m)| ==> 'a' <= Name(m)[i] <= 'z';
      LowerOfLowercase(Name(m));
    }
    NamesDistinct(FromName(Name(m)), m, Name(m));
  }

  /** Every mode's short name leads back to it. */
  lemma {:induction false} FromNameOfShortName(m: GameMode)
    ensures FromName(ShortName(m)) == m
  {
    NamesDistinct(FromName(ShortName(m)), m, Lower(ShortName(m)));
  }

  /** Case does not matter: a name and its lower-cased form give the same mode. */
  lemma {:induction false} FromNameCaseInsensitive(name: string)
    ensures FromName(name) == FromName(Lower(name))
  {
    LowerIdempotent(name);
  }

  /** The default the proxy users fall back on, "SURVIVAL", names SURVIVAL in spite of its case. */
  lemma {:induction false} FromNameOfSurvivalDefault()
    ensures FromName("SURVIVAL") == Survival
  {
    LowerWord("SURVIVAL", Name(Survival));
    NamesDistinct(FromName("SURVIVAL"), Survival, Name(Survival));
  }
}
