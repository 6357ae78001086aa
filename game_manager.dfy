/**
 * The host-side game engine: a turn/elimination state machine over an
 * ordered list of players, a per-turn countdown, the syllable a word must
 * contain, and the set of words already played.
 *
 * Timers are explicit steps here: `Tick` is one firing of the countdown
 * interval and `DelayedTurnStart` is the two-second timeout after an
 * explosion. Randomness is an input: the shuffle of the players is given
 * by the index chosen at each step, the shuffle of the syllable catalog by
 * the order it produced.
 */
module GameEngine {
  import opened Common

  datatype Status = Waiting | Playing | RoundEnd | GameOver

  /** The engine's own record of a participant during one game. */
  datatype Player = Player(id: string, name: string, lives: int, isEliminated: bool, isHost: bool)

  /** The answer to a word submission. */
  datatype Verdict = Verdict(valid: bool, reason: string)

  /** What is broadcast as GAME_STATE: the state without the word list. */
  datatype Snapshot = Snapshot(
    status: Status,
    players: seq<Player>,
    currentPlayerIndex: nat,
    currentPlayerId: Option<string>,
    currentSyllable: string,
    timeRemaining: int,
    maxTime: int,
    usedWordsCount: nat,
    roundNumber: int)

  /** What an explosion led to: the next turn is scheduled, or the game is
      over with the sole remaining player (or nobody) as winner. */
  datatype ExplosionOutcome = NextTurnPending | GameEnded(winner: Option<Player>)

  // Configuration (fixed per process)
  const InitialLives := 3
  const TurnDuration := 10000
  const MinWordsForSyllable := 20
  const TickInterval := 100

  /** The syllable used when the catalog order is empty or starts with "". */
  const DefaultSyllable := "IN"

  /** The strings joined in order. */
  function Flatten(rows: seq<seq<string>>): (r: seq<string>)
    ensures forall x :: x in r <==> exists k :: 0 <= k < |rows| && x in rows[k]
  {
    if rows == [] then [] else rows[0] + Flatten(rows[1..])
  }

  /** Two-letter syllables, one row per initial letter. */
  const TwoLetterRows: seq<seq<string>> := [
    ["AB", "AC", "AD", "AG", "AL", "AM", "AN", "AP", "AR", "AS", "AT", "AW"],
    ["BA", "BE", "BI", "BO", "BR", "BU"],
    ["CA", "CE", "CH", "CI", "CK", "CO", "CR", "CU"],
    ["DA", "DE", "DI", "DO", "DR", "DU"],
    ["EA", "ED", "EE", "EL", "EM", "EN", "ER", "ES", "ET", "EV", "EW", "EX"],
    ["FA", "FE", "FI", "FL", "FO", "FR", "FU"],
    ["GA", "GE", "GH", "GI", "GL", "GO", "GR", "GU"],
    ["HA", "HE", "HI", "HO", "HU"],
    ["IC", "ID", "IF", "IG", "IL", "IM", "IN", "IO", "IR", "IS", "IT", "IV"],
    ["JA", "JE", "JO", "JU"],
    ["KE", "KI", "KN"],
    ["LA", "LE", "LI", "LL", "LO", "LU", "LY"],
    ["MA", "ME", "MI", "MO", "MU"],
    ["NA", "NE", "NI", "NO", "NU"],
    ["OA", "OB", "OC", "OD", "OF", "OI", "OK", "OL", "OM", "ON", "OO", "OP", "OR", "OS", "OT", "OU", "OV", "OW"],
    ["PA", "PE", "PH", "PI", "PL", "PO", "PR", "PU"],
    ["QU"],
    ["RA", "RE", "RI", "RO", "RU"],
    ["SA", "SC", "SE", "SH", "SI", "SK", "SL", "SM", "SN", "SO", "SP", "ST", "SU", "SW"],
    ["TA", "TE", "TH", "TI", "TO", "TR", "TU", "TW"],
    ["UB", "UC", "UD", "UE", "UG", "UL", "UM", "UN", "UP", "UR", "US", "UT"],
    ["VA", "VE", "VI", "VO"],
    ["WA", "WE", "WH", "WI", "WO", "WR"],
    ["YA", "YE", "YO"],
    ["ZA", "ZE", "ZO"]
  ]

  /** Common three-letter syllables, one row per initial letter. */
  const ThreeLetterRows: seq<seq<string>> := [
    ["ACE", "ACT", "AGE", "AID", "AIR", "ALL", "AND", "ANT", "ANY", "APE", "ARC", "ARE", "ARK", "ARM", "ART", "ASH", "ATE"],
    ["BAD", "BAG", "BAN", "BAR", "BAT", "BED", "BIG", "BIT", "BOX", "BOY", "BUS", "BUT", "BUY"],
    ["CAN", "CAP", "CAR", "CAT", "COW", "CRY", "CUP", "CUT"],
    ["DAD", "DAY", "DID", "DIG", "DOG", "DOT", "DRY"],
    ["EAR", "EAT", "EGG", "END", "EYE"],
    ["FAN", "FAR", "FAT", "FEW", "FIT", "FLY", "FOR", "FOX", "FUN"],
    ["GAP", "GAS", "GET", "GOT", "GUN", "GUY"],
    ["HAD", "HAM", "HAS", "HAT", "HER", "HID", "HIM", "HIS", "HIT", "HOT", "HOW"],
    ["ICE", "ILL", "INK"],
    ["JAM", "JAR", "JET", "JOB", "JOY"],
    ["KEY", "KID", "KIT"],
    ["LAP", "LAW", "LAY", "LED", "LEG", "LET", "LID", "LIE", "LIP", "LIT", "LOG", "LOT", "LOW"],
    ["MAD", "MAN", "MAP", "MAT", "MAY", "MEN", "MET", "MIX", "MOM", "MUD"],
    ["NAP", "NET", "NEW", "NIT", "NOT", "NOW", "NUT"],
    ["OAK", "ODD", "OFF", "OFT", "OIL", "OLD", "ONE", "OUR", "OUT", "OWE", "OWL", "OWN"],
    ["PAN", "PAT", "PAY", "PEN", "PET", "PIE", "PIG", "PIN", "PIT", "POT", "PUT"],
    ["RAN", "RAT", "RAW", "RAY", "RED", "RIB", "RID", "RIG", "RIM", "RIP", "ROB", "ROD", "ROT", "ROW", "RUB", "RUG", "RUN"],
    ["SAD", "SAT", "SAW", "SAY", "SEA", "SET", "SHE", "SIT", "SIX", "SKY", "SON", "SUN"],
    ["TAN", "TAP", "TAX", "TEA", "TEN", "THE", "TIE", "TIN", "TIP", "TOE", "TON", "TOO", "TOP", "TOY", "TRY", "TUB", "TWO"],
    ["URN", "USE"],
    ["VAN", "VAT", "VET"],
    ["WAR", "WAS", "WAX", "WAY", "WEB", "WED", "WET", "WHO", "WHY", "WIG", "WIN", "WIT", "WON", "WOO"],
    ["YAM", "YAP", "YES", "YET", "YOU"],
    ["ZAP", "ZEN", "ZIP", "ZOO"]
  ]

  /** Common word endings. */
  const EndingRows: seq<seq<string>> := [
    ["ING", "TER", "TIO", "ION", "ENT", "ATE", "OUS", "IVE", "LY", "ED", "ER", "EST", "ISH", "FUL", "LESS", "NESS", "MENT", "ABLE", "IBLE"]
  ]

  /** Fragments a word may be asked to contain (some appear twice). */
  const SyllablePatterns: seq<string> :=
    Flatten(TwoLetterRows) + Flatten(ThreeLetterRows) + Flatten(EndingRows)

  // The reasons validation reports
  const NotYourTurn := "Not your turn!"
  const TooShort := "Word too short!"
  const NotAWord := "Not a valid word!"
  const AlreadyUsed := "Already used!"
  const Correct := "Correct!"

  function MustContain(syllable: string): string
  {
    "Must contain \"" + syllable + "\"!"
  }

  // ---------------------------------------------------------------------
  // Word validation
  // ---------------------------------------------------------------------

  /** Submitted words are compared upper-cased and trimmed. */
  function Normalize(word: string): string
  {
    Trim(Upper(word))
  }

  lemma NormalizeIdempotent(word: string)
    ensures Normalize(Normalize(word)) == Normalize(word)
  {
    var u := Upper(word);
    var t := Trim(u);
    UpperIsUpperFixed(word);
    UpperFixedInfix(u, LeadingSpaces(u), LeadingSpaces(u) + |t|);
    UpperOfUpperFixed(t);
    TrimOfTrimmed(t);
  }

  /** All five conditions under which a submission is accepted. */
  predicate AllChecksPass(current: Player, syllable: string, dictionary: seq<string>,
                          used: set<string>, word: string, submitter: string)
  {
    var w := Normalize(word);
    && current.id == submitter
    && |w| >= 3
    && Contains(w, syllable)
    && w in dictionary
    && w !in used
  }

  /** validateWord: five checks in a fixed order; the first that fails
      decides the reason. It reads the state and changes nothing. */
  function Validate(current: Player, syllable: string, dictionary: seq<string>,
                    used: set<string>, word: string, submitter: string): (r: Verdict)
    ensures r.valid <==> AllChecksPass(current, syllable, dictionary, used, word, submitter)
    ensures r.valid ==> r.reason == Correct
    ensures current.id != submitter ==> r == Verdict(false, NotYourTurn)
    ensures current.id == submitter && |Normalize(word)| < 3 ==> r == Verdict(false, TooShort)
  {
    var w := Normalize(word);
    if current.id != submitter then Verdict(false, NotYourTurn)
    else if |w| < 3 then Verdict(false, TooShort)
    else if !Contains(w, syllable) then Verdict(false, MustContain(syllable))
    else if w !in dictionary then Verdict(false, NotAWord)
    else if w in used then Verdict(false, AlreadyUsed)
    else Verdict(true, Correct)
  }

  /** One check of the validation list: whether it passes, and what is
      reported when it is the first to fail. */
  datatype Check = Check(passes: bool, reason: string)

  /** The validation checks in the order they are documented. */
  function Checks(current: Player, syllable: string, dictionary: seq<string>,
                  used: set<string>, word: string, submitter: string): seq<Check>
  {
    var w := Normalize(word);
    [ Check(current.id == submitter, NotYourTurn),
      Check(|w| >= 3, TooShort),
      Check(Contains(w, syllable), MustContain(syllable)),
      Check(w in dictionary, NotAWord),
      Check(w !in used, AlreadyUsed) ]
  }

  /** The reason of the first failing check of a list, if any fails. */
  function FirstFailure(checks: seq<Check>): (r: Option<string>)
    ensures r.None? <==> forall i :: 0 <= i < |checks| ==> checks[i].passes
  {
    if checks == [] then None
    else if !checks[0].passes then Some(checks[0].reason)
    else FirstFailure(checks[1..])
  }

  /** Validate is "the first failing check wins" over the documented list. */
  lemma ValidateIsFirstFailingCheck(current: Player, syllable: string, dictionary: seq<string>,
                                    used: set<string>, word: string, submitter: string)
    ensures var cs := Checks(current, syllable, dictionary, used, word, submitter);
            Validate(current, syllable, dictionary, used, word, submitter)
              == match FirstFailure(cs)
                 case None => Verdict(true, Correct)
                 case Some(m) => Verdict(false, m)
  {
    var w := Normalize(word);
    FirstFailureOfFive(Check(current.id == submitter, NotYourTurn),
                       Check(|w| >= 3, TooShort),
                       Check(Contains(w, syllable), MustContain(syllable)),
                       Check(w in dictionary, NotAWord),
                       Check(w !in used, AlreadyUsed));
  }

  lemma FirstFailureOfFive(a: Check, b: Check, c: Check, d: Check, e: Check)
    ensures FirstFailure([a, b, c, d, e])
         == if !a.passes then Some(a.reason)
            else if !b.passes then Some(b.reason)
            else if !c.passes then Some(c.reason)
            else if !d.passes then Some(d.reason)
            else if !e.passes then Some(e.reason)
            else None
  {
    assert [e][1..] == [];
    assert [d, e][1..] == [e];
    assert FirstFailure([d, e]) == if !d.passes then Some(d.reason) else FirstFailure([e]);
    assert [c, d, e][1..] == [d, e];
    assert FirstFailure([c, d, e]) == if !c.passes then Some(c.reason) else FirstFailure([d, e]);
    assert [b, c, d, e][1..] == [c, d, e];
    assert FirstFailure([b, c, d, e]) == if !b.passes then Some(b.reason) else FirstFailure([c, d, e]);
    assert [a, b, c, d, e][1..] == [b, c, d, e];
  }

  /** Only the normalized form of a submission matters. */
  lemma ValidateSeesOnlyNormalizedWord(current: Player, syllable: string, dictionary: seq<string>,
                                       used: set<string>, word: string, submitter: string)
    ensures Validate(current, syllable, dictionary, used, word, submitter)
         == Validate(current, syllable, dictionary, used, Normalize(word), submitter)
  {
    NormalizeIdempotent(word);
    ValidateDependsOnNormalForm(current, syllable, dictionary, used, word, Normalize(word), submitter);
  }

  lemma ValidateDependsOnNormalForm(current: Player, syllable: string, dictionary: seq<string>,
                                    used: set<string>, a: string, b: string, submitter: string)
    requires Normalize(a) == Normalize(b)
    ensures Validate(current, syllable, dictionary, used, a, submitter)
         == Validate(current, syllable, dictionary, used, b, submitter)
  {
  }

  /** A submission is committed as `Upper(word)`, which keeps surrounding
      white space, while validation compares the trimmed word: an accepted
      padded word is still accepted after it has been committed. */
  lemma PaddedWordStaysAcceptable(current: Player, syllable: string, dictionary: seq<string>,
                                  used: set<string>, word: string, submitter: string)
    requires Validate(current, syllable, dictionary, used, word, submitter).valid
    requires Upper(word) != Normalize(word)
    ensures Validate(current, syllable, dictionary, used + {Upper(word)}, word, submitter).valid
  {
  }

  lemma UpperCatExample()
    ensures Upper("cat ") == "CAT "
  {
    assert Upper(" ") == " ";
    assert Upper("t ") == "T ";
    assert Upper("at ") == "AT ";
  }

  lemma TrimEndCatExample()
    ensures TrimEnd("CAT ") == "CAT"
  {
    assert "CAT "[..3] == "CAT";
    assert TrimEnd("CAT") == "CAT";
  }

  lemma TrimCatExample()
    ensures Trim("CAT ") == "CAT"
  {
    assert !IsJsSpace('C');
    assert TrimStart("CAT ") == "CAT ";
    TrimEndCatExample();
    assert Trim("CAT ") == TrimEnd(TrimStart("CAT "));
  }

  /** "cat " (with a trailing space) is such a word. */
  lemma PaddedWordExample()
    ensures Upper("cat ") == "CAT " && Normalize("cat ") == "CAT"
    ensures Validate(Player("p", "P", 3, false, true), "AT", ["CAT"], {}, "cat ", "p").valid
    ensures Validate(Player("p", "P", 3, false, true), "AT", ["CAT"], {"CAT "}, "cat ", "p").valid
  {
    UpperCatExample();
    TrimCatExample();
    assert Contains("AT", "AT");
    assert Contains("CAT", "AT");
  }

  // ---------------------------------------------------------------------
  // Syllable selection
  // ---------------------------------------------------------------------

  /** The dictionary words that contain `syllable` and have not been used. */
  function Available(dictionary: seq<string>, used: set<string>, syllable: string): (r: seq<string>)
    ensures |r| <= |dictionary|
    ensures forall w :: w in r <==> w in dictionary && Contains(w, syllable) && w !in used
  {
    if dictionary == [] then []
    else
      (if Contains(dictionary[0], syllable) && dictionary[0] !in used then [dictionary[0]] else [])
      + Available(dictionary[1..], used, syllable)
  }

  /** Playing more words never makes more of them available. */
  lemma {:induction false} AvailableShrinks(dictionary: seq<string>, used: set<string>,
                                            more: set<string>, syllable: string)
    requires used <= more
    ensures |Available(dictionary, more, syllable)| <= |Available(dictionary, used, syllable)|
  {
    if dictionary != [] {
      AvailableShrinks(dictionary[1..], used, more, syllable);
    }
  }

  predicate Eligible(dictionary: seq<string>, used: set<string>, syllable: string)
  {
    |Available(dictionary, used, syllable)| >= MinWordsForSyllable
  }

  /** The position of the first eligible syllable of `order`, if any. */
  function FirstEligible(order: seq<string>, dictionary: seq<string>, used: set<string>): (r: Option<nat>)
    ensures r.Some? ==> r.value < |order| && Eligible(dictionary, used, order[r.value])
    ensures r.Some? ==> forall j :: 0 <= j < r.value ==> !Eligible(dictionary, used, order[j])
    ensures r.None? ==> forall j :: 0 <= j < |order| ==> !Eligible(dictionary, used, order[j])
  {
    if order == [] then None
    else if Eligible(dictionary, used, order[0]) then Some(0)
    else match FirstEligible(order[1..], dictionary, used)
      case None => None
      case Some(k) => Some(k + 1)
  }

  /** What is picked when no syllable is eligible: the first of the order,
      or the default when there is none (an empty string does not count). */
  function Fallback(order: seq<string>): string
  {
    if order != [] && order[0] != "" then order[0] else DefaultSyllable
  }

  /** generateSyllable over a given shuffle order (greedy, first fit). */
  function PickSyllable(order: seq<string>, dictionary: seq<string>, used: set<string>): string
  {
    match FirstEligible(order, dictionary, used)
    case Some(i) => order[i]
    case None => Fallback(order)
  }

  /** The pick is the first eligible syllable of the order when there is
      one, and the fallback otherwise. */
  lemma PickIsFirstFit(order: seq<string>, dictionary: seq<string>, used: set<string>)
    ensures (exists i :: 0 <= i < |order| && Eligible(dictionary, used, order[i])) ==>
      exists i :: 0 <= i < |order| && PickSyllable(order, dictionary, used) == order[i]
        && Eligible(dictionary, used, order[i])
        && forall j :: 0 <= j < i ==> !Eligible(dictionary, used, order[j])
    ensures (forall i :: 0 <= i < |order| ==> !Eligible(dictionary, used, order[i])) ==>
      PickSyllable(order, dictionary, used) == Fallback(order)
  {
  }

  /** A catalog the fallback never escapes: not empty, no empty fragment. */
  predicate CatalogOk(patterns: seq<string>)
  {
    patterns != [] && forall i :: 0 <= i < |patterns| ==> patterns[i] != ""
  }

  /** Over a shuffle of such a catalog, the pick is always one of its
      fragments (the default syllable is never needed). */
  lemma PickFromCatalog(patterns: seq<string>, order: seq<string>, dictionary: seq<string>, used: set<string>)
    requires CatalogOk(patterns) && multiset(order) == multiset(patterns)
    ensures PickSyllable(order, dictionary, used) in patterns
  {
    assert patterns[0] in multiset(order);
    assert order[0] in multiset(patterns);
    assert Fallback(order) == order[0];
    var r := PickSyllable(order, dictionary, used);
    assert r in multiset(order);
  }

  /** No row of a table holds the empty string. */
  predicate NoEmptyEntry(rows: seq<seq<string>>)
  {
    forall k, j :: 0 <= k < |rows| && 0 <= j < |rows[k]| ==> rows[k][j] != ""
  }

  lemma NoEmptyInFlatten(rows: seq<seq<string>>)
    requires NoEmptyEntry(rows)
    ensures "" !in Flatten(rows)
  {
    forall k | 0 <= k < |rows| ensures "" !in rows[k] {
    }
  }

  lemma InFlatten(rows: seq<seq<string>>, k: nat, x: string)
    requires k < |rows| && x in rows[k]
    ensures x in Flatten(rows)
  {
  }

  lemma TwoLetterRowsOk()
    ensures NoEmptyEntry(TwoLetterRows)
  {
    forall k | 0 <= k < 12
      ensures forall j :: 0 <= j < |TwoLetterRows[k]| ==> TwoLetterRows[k][j] != ""
    {
    }
    forall k | 12 <= k < |TwoLetterRows|
      ensures forall j :: 0 <= j < |TwoLetterRows[k]| ==> TwoLetterRows[k][j] != ""
    {
    }
  }

  lemma ThreeLetterRowsOk()
    ensures NoEmptyEntry(ThreeLetterRows)
  {
    forall k | 0 <= k < 12
      ensures forall j :: 0 <= j < |ThreeLetterRows[k]| ==> ThreeLetterRows[k][j] != ""
    {
    }
    forall k | 12 <= k < |ThreeLetterRows|
      ensures forall j :: 0 <= j < |ThreeLetterRows[k]| ==> ThreeLetterRows[k][j] != ""
    {
    }
  }

  lemma EndingRowsOk()
    ensures NoEmptyEntry(EndingRows)
  {
  }

  lemma CatalogOkByMembership(patterns: seq<string>)
    requires "" !in patterns && DefaultSyllable in patterns
    ensures CatalogOk(patterns)
  {
  }

  lemma DefaultInTwoLetterRows()
    ensures "IN" in Flatten(TwoLetterRows)
  {
    var row := TwoLetterRows[8];
    assert row[6] == "IN";
    InFlatten(TwoLetterRows, 8, "IN");
  }

  lemma JoinedCatalog(a: seq<string>, b: seq<string>, c: seq<string>)
    requires "" !in a && "" !in b && "" !in c && "IN" in a
    ensures "" !in a + b + c && "IN" in a + b + c
  {
  }

  /** The game's own catalog qualifies, and holds the default syllable. */
  lemma SyllableCatalogOk()
    ensures CatalogOk(SyllablePatterns)
    ensures DefaultSyllable in SyllablePatterns
  {
    TwoLetterRowsOk();
    ThreeLetterRowsOk();
    EndingRowsOk();
    NoEmptyInFlatten(TwoLetterRows);
    NoEmptyInFlatten(ThreeLetterRows);
    NoEmptyInFlatten(EndingRows);
    DefaultInTwoLetterRows();
    JoinedCatalog(Flatten(TwoLetterRows), Flatten(ThreeLetterRows), Flatten(EndingRows));
    CatalogOkByMembership(SyllablePatterns);
  }

  // ---------------------------------------------------------------------
  // Players, the shuffle and the circular turn order
  // ---------------------------------------------------------------------

  function NewPlayer(e: RosterEntry): Player
  {
    Player(e.id, e.name, InitialLives, false, e.isHost)
  }

  /** The players of a new game, in roster order, before the shuffle. */
  function NewPlayers(roster: seq<RosterEntry>): seq<Player>
  {
    seq(|roster|, i requires 0 <= i < |roster| => NewPlayer(roster[i]))
  }

  /** The position each step of the shuffle swaps with: at step `i` a
      position in [0, i], as `Math.floor(Math.random() * (i + 1))` gives. */
  predicate ValidPicks(picks: seq<nat>, n: nat)
  {
    |picks| == n && forall i :: 0 <= i < n ==> picks[i] <= i
  }

  function SwapAt<T>(s: seq<T>, i: nat, j: nat): seq<T>
    requires i < |s| && j < |s|
  {
    s[i := s[j]][j := s[i]]
  }

  /** The sequence after the shuffle has done its swaps at positions
      |s| - 1 down to m. */
  function ShuffledFrom<T>(s: seq<T>, picks: seq<nat>, m: nat): (r: seq<T>)
    requires ValidPicks(picks, |s|)
    ensures |r| == |s|
    decreases |s| - m
  {
    if m >= |s| then s
    else SwapAt(ShuffledFrom(s, picks, m + 1), m, picks[m])
  }

  /** shufflePlayers: the swaps at positions |s| - 1 down to 1. */
  function Shuffled<T>(s: seq<T>, picks: seq<nat>): seq<T>
    requires ValidPicks(picks, |s|)
  {
    ShuffledFrom(s, picks, 1)
  }

  /** The shuffle only reorders. */
  lemma {:induction false} ShuffledFromPermutes<T>(s: seq<T>, picks: seq<nat>, m: nat)
    requires ValidPicks(picks, |s|)
    ensures multiset(ShuffledFrom(s, picks, m)) == multiset(s)
    decreases |s| - m
  {
    if m < |s| {
      var t := ShuffledFrom(s, picks, m + 1);
      assert ShuffledFrom(s, picks, m) == SwapAt(t, m, picks[m]);
      ShuffledFromPermutes(s, picks, m + 1);
      SwapPermutes(t, m, picks[m]);
    }
  }

  /** One swap only reorders. */
  lemma SwapPermutes<T>(t: seq<T>, i: nat, j: nat)
    requires i < |t| && j < |t|
    ensures multiset(SwapAt(t, i, j)) == multiset(t)
  {
    var u := t[i := t[j]];
    assert multiset(u) == multiset(t) - multiset{t[i]} + multiset{t[j]};
    assert u[j] == t[j];
    assert multiset(u[j := t[i]]) == multiset(u) - multiset{t[j]} + multiset{t[i]};
  }

  lemma ShuffledPermutes<T>(s: seq<T>, picks: seq<nat>)
    requires ValidPicks(picks, |s|)
    ensures multiset(Shuffled(s, picks)) == multiset(s)
  {
    ShuffledFromPermutes(s, picks, 1);
  }

  /** Player ids tell players apart (they come from a roster map's keys). */
  predicate UniqueIds(ps: seq<Player>)
  {
    forall i, j :: 0 <= i < j < |ps| ==> ps[i].id != ps[j].id
  }

  /** `players.findIndex(p => p.id === id)`: the first index carrying the
      id, or -1 when none does. */
  function IndexOfId(ps: seq<Player>, id: string): (r: int)
    ensures -1 <= r < |ps|
    ensures r >= 0 ==> ps[r].id == id && forall j :: 0 <= j < r ==> ps[j].id != id
    ensures r == -1 <==> forall j :: 0 <= j < |ps| ==> ps[j].id != id
  {
    if ps == [] then -1
    else if ps[0].id == id then 0
    else
      var k := IndexOfId(ps[1..], id);
      if k == -1 then -1 else k + 1
  }

  /** The players not eliminated, in order. */
  function Active(ps: seq<Player>): (r: seq<Player>)
    ensures |r| <= |ps|
  {
    if ps == [] then []
    else (if ps[0].isEliminated then [] else [ps[0]]) + Active(ps[1..])
  }

  /** Active keeps exactly the players who are not eliminated. */
  lemma {:induction false} ActiveMembers(ps: seq<Player>)
    ensures forall p :: p in Active(ps) <==> p in ps && !p.isEliminated
  {
    if ps != [] {
      ActiveMembers(ps[1..]);
      assert ps == [ps[0]] + ps[1..];
    }
  }

  predicate AnyActive(ps: seq<Player>)
  {
    exists i :: 0 <= i < |ps| && !ps[i].isEliminated
  }

  /** `activePlayers[0] || null`. */
  function Winner(ps: seq<Player>): Option<Player>
  {
    var a := Active(ps);
    if a == [] then None else Some(a[0])
  }

  /** The winner is a remaining player, and when exactly one remains it is
      that one; nobody wins when nobody remains. */
  lemma WinnerIsSoleSurvivor(ps: seq<Player>)
    ensures Winner(ps).Some? <==> AnyActive(ps)
    ensures Winner(ps).Some? ==> Winner(ps).value in ps && !Winner(ps).value.isEliminated
    ensures |Active(ps)| == 1 ==>
      forall i :: 0 <= i < |ps| && !ps[i].isEliminated ==> Winner(ps) == Some(ps[i])
  {
    ActiveMembers(ps);
    if AnyActive(ps) {
      var i :| 0 <= i < |ps| && !ps[i].isEliminated;
      assert ps[i] in Active(ps);
    }
    if Active(ps) != [] {
      var p := Active(ps)[0];
      assert p in Active(ps);
      var i :| 0 <= i < |ps| && ps[i] == p;
      assert !ps[i].isEliminated;
    }
    if |Active(ps)| == 1 {
      forall i | 0 <= i < |ps| && !ps[i].isEliminated ensures Winner(ps) == Some(ps[i]) {
        assert ps[i] in Active(ps);
      }
    }
  }

  /** Position `cur + d` on a circle of `n` seats. */
  function Around(cur: nat, d: nat, n: nat): (r: nat)
    requires cur < n && d <= n
    ensures r < n
  {
    if cur + d < n then cur + d else cur + d - n
  }

  /** Every seat is reached by some step count in [1, n]. */
  lemma AroundCovers(cur: nat, n: nat, j: nat) returns (e: nat)
    requires cur < n && j < n
    ensures 1 <= e <= n && Around(cur, e, n) == j
  {
    e := if j > cur then j - cur else j + n - cur;
  }

  /** The seat the turn search stops at, looking from step `d` onwards:
      the first seat not eliminated, or the seat after `cur` when every
      seat is eliminated. */
  function NextActiveFrom(ps: seq<Player>, cur: nat, d: nat): (r: nat)
    requires cur < |ps| && 1 <= d
    ensures r < |ps|
    decreases |ps| + 1 - d
  {
    if d > |ps| then Around(cur, 1, |ps|)
    else if !ps[Around(cur, d, |ps|)].isEliminated then Around(cur, d, |ps|)
    else NextActiveFrom(ps, cur, d + 1)
  }

  function NextActive(ps: seq<Player>, cur: nat): nat
    requires cur < |ps|
  {
    NextActiveFrom(ps, cur, 1)
  }

  /** `r` is the first seat after `cur`, in circular order, of a player who
      is not eliminated. */
  ghost predicate IsFirstActiveAfter(ps: seq<Player>, cur: nat, r: nat)
    requires cur < |ps|
  {
    exists d :: 1 <= d <= |ps| && r == Around(cur, d, |ps|) && !ps[r].isEliminated
      && forall e :: 1 <= e < d ==> ps[Around(cur, e, |ps|)].isEliminated
  }

  lemma {:induction false} NextActiveFromIsFirst(ps: seq<Player>, cur: nat, d: nat)
    requires cur < |ps| && 1 <= d <= |ps| + 1
    requires forall e :: 1 <= e < d ==> ps[Around(cur, e, |ps|)].isEliminated
    ensures (exists e :: d <= e <= |ps| && !ps[Around(cur, e, |ps|)].isEliminated) ==>
      IsFirstActiveAfter(ps, cur, NextActiveFrom(ps, cur, d))
    ensures (forall e :: d <= e <= |ps| ==> ps[Around(cur, e, |ps|)].isEliminated) ==>
      NextActiveFrom(ps, cur, d) == Around(cur, 1, |ps|)
    decreases |ps| + 1 - d
  {
    if d <= |ps| {
      if ps[Around(cur, d, |ps|)].isEliminated {
        NextActiveFromIsFirst(ps, cur, d + 1);
      }
    }
  }

  /** getNextPlayerIndex: when somebody is still in, the turn goes to the
      first such player after the current seat; otherwise to the next seat. */
  lemma NextActiveIsFirstActive(ps: seq<Player>, cur: nat)
    requires cur < |ps|
    ensures NextActive(ps, cur) < |ps|
    ensures AnyActive(ps) ==> IsFirstActiveAfter(ps, cur, NextActive(ps, cur))
    ensures AnyActive(ps) ==> !ps[NextActive(ps, cur)].isEliminated
    ensures !AnyActive(ps) ==> NextActive(ps, cur) == Around(cur, 1, |ps|)
  {
    NextActiveFromIsFirst(ps, cur, 1);
    if AnyActive(ps) {
      var j :| 0 <= j < |ps| && !ps[j].isEliminated;
      var e := AroundCovers(cur, |ps|, j);
    }
  }

  /** `(x + 1) % n` for a seat `x`. */
  lemma WrapStep(x: nat, n: nat)
    requires x < n
    ensures (x + 1) % n == if x + 1 < n then x + 1 else 0
  {
  }

  // ---------------------------------------------------------------------
  // The engine object
  // ---------------------------------------------------------------------

  /** A player after losing one life. */
  function LoseLife(p: Player): (q: Player)
    ensures q.id == p.id && q.name == p.name && q.isHost == p.isHost
    ensures q.lives == p.lives - 1
    ensures q.isEliminated <==> p.isEliminated || q.lives <= 0
  {
    var lives := p.lives - 1;
    p.(lives := lives, isEliminated := if lives <= 0 then true else p.isEliminated)
  }

  class GameManager {
    /** The syllable catalog (`syllablePatterns`). */
    const syllablePatterns: seq<string>

    var dictionary: seq<string>
    var dictionaryLoaded: bool

    var status: Status
    var players: seq<Player>
    var currentPlayerIndex: nat
    var currentSyllable: string
    var timeRemaining: int
    var usedWords: set<string>
    var roundNumber: int

    /** Whether the countdown interval is scheduled. */
    var ticking: bool
    /** Every GAME_STATE snapshot handed to the network layer, oldest first. */
    var broadcasts: seq<Snapshot>

    /** The current index names a player whenever there is one. */
    ghost predicate Valid()
      reads this
    {
      && CatalogOk(syllablePatterns)
      && (currentPlayerIndex < |players| || (players == [] && currentPlayerIndex == 0))
    }

    /** A shuffle of the catalog: the same fragments, each as often. */
    predicate IsCatalogShuffle(order: seq<string>)
    {
      multiset(order) == multiset(syllablePatterns)
    }

    /** The engine starts in an empty waiting room. The catalog is a
        parameter; the game passes SyllablePatterns, which SyllableCatalogOk
        shows to qualify. */
    constructor (patterns: seq<string>)
      requires CatalogOk(patterns)
      ensures Valid() && syllablePatterns == patterns
      ensures dictionary == [] && !dictionaryLoaded
      ensures status == Waiting && players == [] && currentPlayerIndex == 0
      ensures currentSyllable == "" && timeRemaining == 0 && usedWords == {} && roundNumber == 1
      ensures !ticking && broadcasts == []
    {
      syllablePatterns := patterns;
      dictionary, dictionaryLoaded := [], false;
      status, players, currentPlayerIndex := Waiting, [], 0;
      currentSyllable, timeRemaining, usedWords, roundNumber := "", 0, {}, 1;
      ticking, broadcasts := false, [];
    }

    /** getState (also what broadcastState sends). */
    function GetState(): (r: Snapshot)
      reads this
      ensures r.currentPlayerId.Some? <==> currentPlayerIndex < |players|
      ensures r.currentPlayerId.Some? ==> r.currentPlayerId.value == players[currentPlayerIndex].id
      ensures r.usedWordsCount == |usedWords| && r.maxTime == TurnDuration
    {
      Snapshot(status, players, currentPlayerIndex,
               if currentPlayerIndex < |players| then Some(players[currentPlayerIndex].id) else None,
               currentSyllable, timeRemaining, TurnDuration, |usedWords|, roundNumber)
    }

    function CurrentPlayer(): Player
      reads this
      requires Valid() && players != []
    {
      players[currentPlayerIndex]
    }

    /** loadDictionary, with the page's global word list as a parameter
        (None when it is missing). */
    method LoadDictionary(global: Option<seq<string>>) returns (ok: bool)
      modifies this`dictionary, this`dictionaryLoaded
      ensures ok == (old(dictionaryLoaded) || global.Some?)
      ensures dictionaryLoaded == ok
      ensures dictionary == if !old(dictionaryLoaded) && global.Some?
                            then seq(|global.value|, i requires 0 <= i < |global.value| => Upper(global.value[i]))
                            else old(dictionary)
    {
      if dictionaryLoaded {
        return true;
      }
      if global.Some? {
        var words := global.value;
        dictionary := seq(|words|, i requires 0 <= i < |words| => Upper(words[i]));
        dictionaryLoaded := true;
        return true;
      }
      return false;
    }

    /** shufflePlayers: Fisher-Yates swaps from the last position down to 1,
        position i swapping with picks[i]. */
    method ShufflePlayers(picks: seq<nat>)
      requires ValidPicks(picks, |players|)
      modifies this`players
      ensures players == Shuffled(old(players), picks)
      ensures multiset(players) == multiset(old(players))
    {
      ghost var start := players;
      var i := |players| - 1;
      while i > 0
        invariant -1 <= i < |start| && |players| == |start|
        invariant players == ShuffledFrom(start, picks, i + 1)
      {
        players := SwapAt(players, i, picks[i]);
        i := i - 1;
      }
      ShuffledPermutes(start, picks);
    }

    /** initGame: a fresh game over the roster, shuffled. The countdown is
        not stopped here. */
    method InitGame(roster: seq<RosterEntry>, picks: seq<nat>)
      requires Valid() && ValidPicks(picks, |roster|)
      modifies this`status, this`players, this`currentPlayerIndex, this`currentSyllable,
               this`timeRemaining, this`usedWords, this`roundNumber
      ensures Valid()
      ensures players == Shuffled(NewPlayers(roster), picks)
      ensures multiset(players) == multiset(NewPlayers(roster))
      ensures forall i :: 0 <= i < |players| ==> players[i].lives == InitialLives && !players[i].isEliminated
      ensures status == Playing && currentPlayerIndex == 0 && currentSyllable == ""
      ensures timeRemaining == TurnDuration && usedWords == {} && roundNumber == 1
    {
      status := Playing;
      players := NewPlayers(roster);
      currentPlayerIndex := 0;
      currentSyllable := "";
      timeRemaining := TurnDuration;
      usedWords := {};
      roundNumber := 1;
      ShufflePlayers(picks);
      forall i | 0 <= i < |players|
        ensures players[i].lives == InitialLives && !players[i].isEliminated
      {
        assert players[i] in multiset(NewPlayers(roster));
      }
    }

    /** generateSyllable, over the order the shuffle produced. */
    function GenerateSyllable(order: seq<string>): (s: string)
      reads this
      requires IsCatalogShuffle(order)
      requires CatalogOk(syllablePatterns)
      ensures s in syllablePatterns
    {
      PickFromCatalog(syllablePatterns, order, dictionary, usedWords);
      PickSyllable(order, dictionary, usedWords)
    }

    /** getNextPlayerIndex: search forward, wrapping, for a player who is
        not eliminated, giving up after a full round. */
    method GetNextPlayerIndex() returns (r: nat)
      requires Valid() && players != []
      ensures r == NextActive(players, currentPlayerIndex)
      ensures r < |players|
      ensures AnyActive(players) ==> !players[r].isEliminated
      ensures AnyActive(players) ==> IsFirstActiveAfter(players, currentPlayerIndex, r)
    {
      var n := |players|;
      WrapStep(currentPlayerIndex, n);
      var next := (currentPlayerIndex + 1) % n;
      var attempts := 0;
      while players[next].isEliminated && attempts < n
        invariant 0 <= attempts <= n && next < n
        invariant next == Around(currentPlayerIndex, if attempts < n then attempts + 1 else 1, n)
        invariant NextActiveFrom(players, currentPlayerIndex, attempts + 1) == NextActive(players, currentPlayerIndex)
      {
        WrapStep(next, n);
        next := (next + 1) % n;
        attempts := attempts + 1;
      }
      r := next;
      NextActiveIsFirstActive(players, currentPlayerIndex);
    }

    /** validateWord (a read of the state, no change). */
    function ValidateWord(word: string, playerId: string): (r: Verdict)
      reads this
      requires Valid() && players != []
      ensures r.valid <==> AllChecksPass(CurrentPlayer(), currentSyllable, dictionary, usedWords, word, playerId)
      ensures CurrentPlayer().id != playerId ==> r == Verdict(false, NotYourTurn)
    {
      Validate(CurrentPlayer(), currentSyllable, dictionary, usedWords, word, playerId)
    }

    /** startTurn: restart the countdown and move to the player carrying the
        id (or stay where we are when nobody does), then broadcast. */
    method StartTurn(playerId: string)
      requires Valid() && players != []
      modifies this`ticking, this`timeRemaining, this`currentPlayerIndex, this`broadcasts
      ensures Valid()
      ensures ticking && timeRemaining == TurnDuration
      ensures var k := IndexOfId(players, playerId);
              currentPlayerIndex == if k >= 0 then k else old(currentPlayerIndex)
      ensures broadcasts == old(broadcasts) + [GetState()]
    {
      ticking := false;
      timeRemaining := TurnDuration;
      var k := IndexOfId(players, playerId);
      if k != -1 {
        currentPlayerIndex := k;
      }
      ticking := true;
      broadcasts := broadcasts + [GetState()];
    }

    /** The two-second timeout scheduled by an explosion: start the turn of
        whoever is current when it fires. */
    method DelayedTurnStart()
      requires Valid() && players != []
      modifies this`ticking, this`timeRemaining, this`currentPlayerIndex, this`broadcasts
      ensures Valid()
      ensures ticking && timeRemaining == TurnDuration
      ensures players[currentPlayerIndex].id == players[old(currentPlayerIndex)].id
      ensures UniqueIds(players) ==> currentPlayerIndex == old(currentPlayerIndex)
      ensures broadcasts == old(broadcasts) + [GetState()]
    {
      StartTurn(CurrentPlayer().id);
    }

    /** passTurn: a new syllable, the next player, and that player's turn. */
    method PassTurn(order: seq<string>)
      requires Valid() && players != [] && IsCatalogShuffle(order)
      modifies this`ticking, this`timeRemaining, this`currentPlayerIndex, this`broadcasts,
               this`currentSyllable
      ensures Valid()
      ensures currentSyllable == PickSyllable(order, dictionary, usedWords)
      ensures ticking && timeRemaining == TurnDuration
      ensures var next := NextActive(players, old(currentPlayerIndex));
              && players[currentPlayerIndex].id == players[next].id
              && (UniqueIds(players) ==> currentPlayerIndex == next)
      ensures UniqueIds(players) && AnyActive(players) ==> !players[currentPlayerIndex].isEliminated
      ensures broadcasts == old(broadcasts) + [GetState()]
    {
      ticking := false;
      currentSyllable := GenerateSyllable(order);
      currentPlayerIndex := GetNextPlayerIndex();
      StartTurn(CurrentPlayer().id);
    }

    /** The success branch of handleWordSubmission: commit the upper-cased
        (untrimmed) word, then pass the turn. */
    method CommitWord(word: string, order: seq<string>)
      requires Valid() && players != [] && IsCatalogShuffle(order)
      modifies this`usedWords, this`ticking, this`timeRemaining, this`currentPlayerIndex,
               this`broadcasts, this`currentSyllable
      ensures Valid()
      ensures usedWords == old(usedWords) + {Upper(word)}
      ensures currentSyllable == PickSyllable(order, dictionary, usedWords)
      ensures ticking && timeRemaining == TurnDuration
      ensures var next := NextActive(players, old(currentPlayerIndex));
              && players[currentPlayerIndex].id == players[next].id
              && (UniqueIds(players) ==> currentPlayerIndex == next)
      ensures broadcasts == old(broadcasts) + [GetState()]
    {
      usedWords := usedWords + {Upper(word)};
      PassTurn(order);
    }

    /** handleWordSubmission: validate; on success commit the word and pass
        the turn; on failure change nothing. */
    method HandleWordSubmission(word: string, playerId: string, order: seq<string>) returns (r: Verdict)
      requires Valid() && players != [] && IsCatalogShuffle(order)
      modifies this`usedWords, this`ticking, this`timeRemaining, this`currentPlayerIndex,
               this`broadcasts, this`currentSyllable
      ensures Valid()
      ensures r == Validate(old(CurrentPlayer()), old(currentSyllable), dictionary, old(usedWords), word, playerId)
      ensures r.valid ==>
        && usedWords == old(usedWords) + {Upper(word)}
        && currentSyllable == PickSyllable(order, dictionary, usedWords)
        && ticking && timeRemaining == TurnDuration
        && players[currentPlayerIndex].id == players[NextActive(players, old(currentPlayerIndex))].id
        && (UniqueIds(players) ==> currentPlayerIndex == NextActive(players, old(currentPlayerIndex)))
        && broadcasts == old(broadcasts) + [GetState()]
      ensures !r.valid ==>
        && usedWords == old(usedWords) && currentPlayerIndex == old(currentPlayerIndex)
        && currentSyllable == old(currentSyllable) && timeRemaining == old(timeRemaining)
        && ticking == old(ticking) && broadcasts == old(broadcasts)
    {
      r := ValidateWord(word, playerId);
      if r.valid {
        CommitWord(word, order);
      }
    }

    /** endGame: stop the countdown, enter GAME_OVER and broadcast. */
    method EndGame()
      modifies this`ticking, this`status, this`broadcasts
      ensures !ticking && status == GameOver
      ensures broadcasts == old(broadcasts) + [GetState()]
    {
      ticking := false;
      status := GameOver;
      broadcasts := broadcasts + [GetState()];
    }

    /** explode: the current player loses a life (and is out at zero). With
        at most one player left the game ends; otherwise the next player is
        chosen and the state broadcast, the turn itself starting later. */
    method Explode(order: seq<string>) returns (outcome: ExplosionOutcome)
      requires Valid() && players != [] && IsCatalogShuffle(order)
      modifies this`ticking, this`players, this`status, this`currentSyllable,
               this`currentPlayerIndex, this`broadcasts
      ensures Valid()
      ensures players == old(players)[old(currentPlayerIndex) := LoseLife(old(CurrentPlayer()))]
      ensures !ticking
      ensures outcome.GameEnded? <==> |Active(players)| <= 1
      ensures outcome.GameEnded? ==>
        && outcome.winner == Winner(players) && status == GameOver
        && currentPlayerIndex == old(currentPlayerIndex) && currentSyllable == old(currentSyllable)
      ensures outcome.NextTurnPending? ==>
        && status == old(status)
        && currentSyllable == PickSyllable(order, dictionary, usedWords)
        && currentPlayerIndex == NextActive(players, old(currentPlayerIndex))
        && !players[currentPlayerIndex].isEliminated
      ensures broadcasts == old(broadcasts) + [GetState()]
    {
      ticking := false;
      LoseCurrentLife();
      if |Active(players)| <= 1 {
        outcome := GameEnded(Winner(players));
        EndGame();
      } else {
        MoveOnAfterExplosion(order);
        outcome := NextTurnPending;
      }
    }

    /** The current player loses a life; nobody else changes. */
    method LoseCurrentLife()
      requires Valid() && players != []
      modifies this`players
      ensures Valid()
      ensures players == old(players)[old(currentPlayerIndex) := LoseLife(old(CurrentPlayer()))]
    {
      players := players[currentPlayerIndex := LoseLife(CurrentPlayer())];
    }

    /** The rest of explode when two or more players remain: a new syllable,
        the next remaining player, and a broadcast. */
    method MoveOnAfterExplosion(order: seq<string>)
      requires Valid() && players != [] && IsCatalogShuffle(order) && |Active(players)| >= 2
      modifies this`currentSyllable, this`currentPlayerIndex, this`broadcasts
      ensures Valid()
      ensures currentSyllable == PickSyllable(order, dictionary, usedWords)
      ensures currentPlayerIndex == NextActive(players, old(currentPlayerIndex))
      ensures !players[currentPlayerIndex].isEliminated
      ensures broadcasts == old(broadcasts) + [GetState()]
    {
      var first := Active(players)[0];
      ActiveMembers(players);
      assert first in Active(players);
      currentSyllable := GenerateSyllable(order);
      currentPlayerIndex := GetNextPlayerIndex();
      broadcasts := broadcasts + [GetState()];
    }

    /** One firing of the countdown interval. */
    method Tick(order: seq<string>) returns (exploded: Option<ExplosionOutcome>)
      requires Valid() && ticking && players != [] && IsCatalogShuffle(order)
      modifies this`timeRemaining, this`ticking, this`players, this`status, this`currentSyllable,
               this`currentPlayerIndex, this`broadcasts
      ensures Valid()
      ensures timeRemaining == old(timeRemaining) - TickInterval
      ensures exploded.Some? <==> timeRemaining <= 0
      ensures exploded.None? ==>
        && ticking && players == old(players) && status == old(status)
        && currentPlayerIndex == old(currentPlayerIndex) && currentSyllable == old(currentSyllable)
      ensures exploded.Some? ==>
        && !ticking
        && players == old(players)[old(currentPlayerIndex) := LoseLife(old(CurrentPlayer()))]
        && (exploded.value.GameEnded? <==> |Active(players)| <= 1)
      ensures exploded.Some? && exploded.value.GameEnded? ==>
        && exploded.value.winner == Winner(players) && status == GameOver
        && currentPlayerIndex == old(currentPlayerIndex) && currentSyllable == old(currentSyllable)
      ensures exploded.Some? && exploded.value.NextTurnPending? ==>
        && status == old(status)
        && currentSyllable == PickSyllable(order, dictionary, usedWords)
        && currentPlayerIndex == NextActive(players, old(currentPlayerIndex))
        && !players[currentPlayerIndex].isEliminated
      ensures broadcasts == old(broadcasts) + [GetState()]
    {
      timeRemaining := timeRemaining - TickInterval;
      if timeRemaining <= 0 {
        var outcome := Explode(order);
        exploded := Some(outcome);
      } else {
        broadcasts := broadcasts + [GetState()];
        exploded := None;
      }
    }

    /** startGame: refused (and nothing changes) until the dictionary is
        loaded; otherwise PLAYING, a syllable, and the current player's turn. */
    method StartGame(order: seq<string>) returns (ok: bool)
      requires Valid() && IsCatalogShuffle(order)
      requires dictionaryLoaded ==> players != []
      modifies this`status, this`currentSyllable, this`ticking, this`timeRemaining,
               this`currentPlayerIndex, this`broadcasts
      ensures Valid()
      ensures ok == dictionaryLoaded
      ensures !ok ==>
        && status == old(status) && currentPlayerIndex == old(currentPlayerIndex)
        && currentSyllable == old(currentSyllable) && timeRemaining == old(timeRemaining)
        && ticking == old(ticking) && broadcasts == old(broadcasts)
      ensures ok ==>
        && status == Playing
        && currentSyllable == PickSyllable(order, dictionary, usedWords)
        && ticking && timeRemaining == TurnDuration
        && players[currentPlayerIndex].id == players[old(currentPlayerIndex)].id
        && broadcasts == old(broadcasts) + [GetState()]
    {
      if !dictionaryLoaded {
        return false;
      }
      status := Playing;
      currentSyllable := GenerateSyllable(order);
      assert currentSyllable == PickSyllable(order, dictionary, usedWords);
      var id := CurrentPlayer().id;
      assert IndexOfId(players, id) != -1 by {
        assert players[currentPlayerIndex].id == id;
      }
      StartTurn(id);
      return true;
    }

    /** reset: stop the countdown and return to an empty waiting room. */
    method Reset()
      requires Valid()
      modifies this`ticking, this`status, this`players, this`currentPlayerIndex,
               this`currentSyllable, this`timeRemaining, this`usedWords, this`roundNumber
      ensures Valid()
      ensures !ticking
      ensures status == Waiting && players == [] && currentPlayerIndex == 0
      ensures currentSyllable == "" && timeRemaining == 0 && usedWords == {} && roundNumber == 1
    {
      ticking := false;
      status, players, currentPlayerIndex := Waiting, [], 0;
      currentSyllable, timeRemaining, usedWords, roundNumber := "", 0, {}, 1;
    }
  }
}
