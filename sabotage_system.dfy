/**
 * The chaos-points ledger and the bookkeeping of sabotage effects.
 *
 * A player earns chaos points for accepted words and spends them on one of
 * six fixed sabotages. An applied sabotage is remembered in `activeEffects`
 * under its id together with the id of the timer that will end it; the
 * timer's firing is the explicit step EffectExpired. What an effect does
 * to the page (overlays, CSS classes) is not part of this model, except
 * for the "reverse" effect, whose key handler rewrites the input text.
 */
module Sabotage {
  import opened Common

  /** A catalog entry (its emoji and description left out). */
  datatype Sabotage = Sabotage(id: string, name: string, cost: nat, duration: nat)

  const Flashbang := Sabotage("flashbang", "Flashbang", 15, 2000)
  const Earthquake := Sabotage("earthquake", "Earthquake", 10, 3000)
  const Drunk := Sabotage("drunk", "Drunk Mode", 20, 4000)
  const Reverse := Sabotage("reverse", "Reverse", 25, 5000)
  const Blackout := Sabotage("blackout", "Blackout", 30, 3000)
  const TinyText := Sabotage("tiny_text", "Tiny Text", 12, 4000)

  /** `Object.values(SabotageSystem.Sabotages)`, in declaration order. */
  const Catalog := [Flashbang, Earthquake, Drunk, Reverse, Blackout, TinyText]

  /** What a catalog search finds: the first entry of `entries` with that id. */
  function FindById(entries: seq<Sabotage>, id: string): (r: Option<Sabotage>)
    ensures r.Some? ==> r.value in entries && r.value.id == id
    ensures r.None? <==> forall i :: 0 <= i < |entries| ==> entries[i].id != id
  {
    if entries == [] then None
    else if entries[0].id == id then Some(entries[0])
    else FindById(entries[1..], id)
  }

  /** getSabotageById. */
  function GetSabotageById(id: string): (r: Option<Sabotage>)
    ensures r.Some? ==> r.value in Catalog && r.value.id == id
    ensures r.None? <==> forall i :: 0 <= i < |Catalog| ==> Catalog[i].id != id
  {
    FindById(Catalog, id)
  }

  /** No two catalog entries share an id, so the entry found is the only one. */
  lemma CatalogIdsUnique()
    ensures forall i, j :: 0 <= i < j < |Catalog| ==> Catalog[i].id != Catalog[j].id
  {
  }

  /** Whatever entry carries an id is the one the lookup returns. */
  lemma LookupFindsTheEntry(i: nat)
    requires i < |Catalog|
    ensures GetSabotageById(Catalog[i].id) == Some(Catalog[i])
  {
    CatalogIdsUnique();
    var r := GetSabotageById(Catalog[i].id);
    var j :| 0 <= j < |Catalog| && Catalog[j] == r.value;
    assert j == i;
  }

  /** The six ids, and nothing else, are known. */
  lemma KnownIds(id: string)
    ensures GetSabotageById(id).Some? <==>
      id in ["flashbang", "earthquake", "drunk", "reverse", "blackout", "tiny_text"]
  {
    if id in ["flashbang", "earthquake", "drunk", "reverse", "blackout", "tiny_text"] {
      assert Catalog[0].id == "flashbang" && Catalog[1].id == "earthquake" && Catalog[2].id == "drunk";
      assert Catalog[3].id == "reverse" && Catalog[4].id == "blackout" && Catalog[5].id == "tiny_text";
    }
  }

  // ---------------------------------------------------------------------
  // Points
  // ---------------------------------------------------------------------

  /** The bonus for long words. */
  function LengthBonus(length: nat): (b: nat)
    ensures b == 0 || b == 2 || b == 5
    ensures b == 5 <==> length >= 8
    ensures b == 0 <==> length < 6
  {
    if length >= 8 then 5 else if length >= 6 then 2 else 0
  }

  /** What awardPoints grants for a word of `length` characters. */
  function Points(length: nat): (p: nat)
    ensures p >= 1
    ensures length >= 3 ==> p == length - 2 + LengthBonus(length)
    ensures length < 3 ==> p == 1 + LengthBonus(length)
  {
    (if length - 2 > 1 then length - 2 else 1) + LengthBonus(length)
  }

  lemma PointsExamples()
    ensures Points(9) == 12 && Points(3) == 1 && Points(6) == 6
    ensures Points(5) == 3 && Points(8) == 11
  {
  }

  /** A longer word never earns less. */
  lemma PointsMonotone(a: nat, b: nat)
    requires a <= b
    ensures Points(a) <= Points(b)
  {
  }

  /** `canAfford` on a given balance. */
  predicate Affordable(balance: int, id: string)
  {
    var s := GetSabotageById(id);
    s.Some? && balance >= s.value.cost
  }

  // ---------------------------------------------------------------------
  // The reverse effect's key handler
  // ---------------------------------------------------------------------

  /** The input's text and caret after a key in reverse mode. */
  datatype InputEdit = InputEdit(value: string, selectionStart: nat, selectionEnd: nat)

  /** The typed character goes in front, upper-cased; the selection is cut. */
  function ReverseInsert(value: string, start: nat, end: nat, key: char): (r: string)
    requires start <= end <= |value|
    ensures |r| == |value| - (end - start) + 1
    ensures r[0] == UpperChar(key)
    ensures r[1..] == value[..start] + value[end..]
  {
    [UpperChar(key)] + value[..start] + value[end..]
  }

  /** Typing `keys` one after the other in reverse mode: the first key
      replaces the selection, every later one lands in front with the
      caret at 1. */
  function TypeReversed(value: string, start: nat, end: nat, keys: seq<char>): string
    requires start <= end <= |value|
    decreases |keys|
  {
    if keys == [] then value
    else
      TypeReversed(ReverseInsert(value, start, end, keys[0]), 1, 1, keys[1..])
  }

  function Reversed<T>(s: seq<T>): (r: seq<T>)
    ensures |r| == |s|
    ensures forall i :: 0 <= i < |s| ==> r[i] == s[|s| - 1 - i]
  {
    if s == [] then [] else Reversed(s[1..]) + [s[0]]
  }

  /** "Type backwards!": the keys come out in reverse order and upper
      case, in front of what was around the selection. */
  lemma {:induction false} TypingComesOutBackwards(value: string, start: nat, end: nat, keys: seq<char>)
    requires start <= end <= |value|
    requires keys != []
    ensures TypeReversed(value, start, end, keys) == Upper(Reversed(keys)) + value[..start] + value[end..]
    decreases |keys|
  {
    var first := ReverseInsert(value, start, end, keys[0]);
    if |keys| == 1 {
      assert Upper(Reversed(keys)) == [UpperChar(keys[0])];
    } else {
      TypingComesOutBackwards(first, 1, 1, keys[1..]);
      var rest := value[..start] + value[end..];
      assert first[..1] == [UpperChar(keys[0])];
      assert first[1..] == rest;
      assert Reversed(keys) == Reversed(keys[1..]) + [keys[0]];
      UpperAppend(Reversed(keys[1..]), [keys[0]]);
    }
  }

  lemma UpperAppend(a: string, b: string)
    ensures Upper(a + b) == Upper(a) + Upper(b)
  {
    var l, r := Upper(a + b), Upper(a) + Upper(b);
    forall i | 0 <= i < |a + b| ensures l[i] == r[i] {
      if i < |a| {
        assert (a + b)[i] == a[i] && r[i] == Upper(a)[i];
      } else {
        assert (a + b)[i] == b[i - |a|] && r[i] == Upper(b)[i - |a|];
      }
    }
  }

  /** Deleting a key and setting it again is setting it. */
  lemma ReplaceAfterDelete<V>(m: map<string, V>, k: string, v: V)
    ensures (m - {k})[k := v] == m[k := v]
  {
  }

  // ---------------------------------------------------------------------
  // The system
  // ---------------------------------------------------------------------

  /** A positive timer id, as setTimeout returns. */
  type TimerId = t: int | t > 0 witness 1

  /** The callbacks the system fires, in order. */
  datatype Notice =
    | PointsChanged(total: int, delta: int)
    | Applied(sabotage: Sabotage)
    | Ended(id: string)

  class SabotageSystem {
    var activeEffects: map<string, TimerId>
    var chaosPoints: int
    var isReverseActive: bool
    var notices: seq<Notice>

    constructor ()
      ensures activeEffects == map[] && chaosPoints == 0 && !isReverseActive && notices == []
    {
      activeEffects := map[];
      chaosPoints := 0;
      isReverseActive := false;
      notices := [];
    }

    /** awardPoints: the balance grows by exactly what is returned. */
    method AwardPoints(word: string) returns (total: nat)
      modifies this`chaosPoints, this`notices
      ensures total == Points(|word|) && total >= 1
      ensures chaosPoints == old(chaosPoints) + total
      ensures notices == old(notices) + [PointsChanged(chaosPoints, total)]
    {
      var points := if |word| - 2 > 1 then |word| - 2 else 1;
      var bonus := 0;
      if |word| >= 8 {
        bonus := 5;
      } else if |word| >= 6 {
        bonus := 2;
      }
      total := points + bonus;
      chaosPoints := chaosPoints + total;
      notices := notices + [PointsChanged(chaosPoints, total)];
    }

    /** canAfford: the entry exists and the balance covers its cost. */
    predicate CanAfford(id: string)
      reads this`chaosPoints
    {
      Affordable(chaosPoints, id)
    }

    /** spendPoints: succeeds exactly when affordable, and then takes
        exactly the cost. */
    method SpendPoints(id: string) returns (ok: bool)
      modifies this`chaosPoints, this`notices
      ensures ok == old(CanAfford(id))
      ensures ok ==> chaosPoints == old(chaosPoints) - GetSabotageById(id).value.cost
      ensures ok ==> notices == old(notices) + [PointsChanged(chaosPoints, -(GetSabotageById(id).value.cost as int))]
      ensures !ok ==> chaosPoints == old(chaosPoints) && notices == old(notices)
      ensures old(chaosPoints) >= 0 ==> chaosPoints >= 0
    {
      var s := GetSabotageById(id);
      if s.None? || chaosPoints < s.value.cost {
        return false;
      }
      chaosPoints := chaosPoints - s.value.cost;
      notices := notices + [PointsChanged(chaosPoints, -(s.value.cost as int))];
      return true;
    }

    /** clearEffect: only the entry for `id` goes; ending "reverse" turns
        the key handler off. */
    method ClearEffect(id: string)
      modifies this`activeEffects, this`isReverseActive
      ensures activeEffects == old(activeEffects) - {id}
      ensures isReverseActive == (old(isReverseActive) && id != Reverse.id)
    {
      if id in activeEffects {
        activeEffects := activeEffects - {id};
      }
      if id == Reverse.id {
        isReverseActive := false;
      }
    }

    /** clearAllEffects: each remembered effect is cleared, then the map
        and the reverse flag. */
    method ClearAllEffects()
      modifies this`activeEffects, this`isReverseActive
      ensures activeEffects == map[] && !isReverseActive
    {
      var pending := activeEffects.Keys;
      while pending != {}
        invariant activeEffects.Keys == pending
        decreases pending
      {
        var id :| id in pending;
        ClearEffect(id);
        pending := pending - {id};
      }
      activeEffects := map[];
      isReverseActive := false;
    }

    /** applySabotage: a known sabotage replaces any running effect of the
        same kind; `timer` is the id of the timer that will end it. */
    method ApplySabotage(id: string, timer: TimerId)
      modifies this`activeEffects, this`isReverseActive, this`notices
      ensures GetSabotageById(id).None? ==>
        activeEffects == old(activeEffects) && isReverseActive == old(isReverseActive) && notices == old(notices)
      ensures GetSabotageById(id).Some? ==>
        && activeEffects == old(activeEffects)[id := timer]
        && isReverseActive == (id == Reverse.id || old(isReverseActive))
        && notices == old(notices) + [Applied(GetSabotageById(id).value)]
    {
      var s := GetSabotageById(id);
      if s.None? {
        return;
      }
      ClearEffect(id);
      if id == Reverse.id {
        isReverseActive := true;
      }
      ReplaceAfterDelete(old(activeEffects), id, timer);
      activeEffects := activeEffects[id := timer];
      notices := notices + [Applied(s.value)];
    }

    /** The end-of-effect timer set by applySabotage fires. */
    method EffectExpired(id: string)
      modifies this`activeEffects, this`isReverseActive, this`notices
      ensures activeEffects == old(activeEffects) - {id}
      ensures isReverseActive == (old(isReverseActive) && id != Reverse.id)
      ensures notices == old(notices) + [Ended(id)]
    {
      if id == Reverse.id {
        isReverseActive := false;
      }
      activeEffects := activeEffects - {id};
      notices := notices + [Ended(id)];
    }

    /** reset: no effects, no points. */
    method Reset()
      modifies this`activeEffects, this`isReverseActive, this`chaosPoints, this`notices
      ensures activeEffects == map[] && !isReverseActive && chaosPoints == 0
      ensures notices == old(notices) + [PointsChanged(0, 0)]
    {
      ClearAllEffects();
      chaosPoints := 0;
      notices := notices + [PointsChanged(0, 0)];
    }

    /** setChaosPoints: the balance the host reports, as it is. */
    method SetChaosPoints(points: int)
      modifies this`chaosPoints, this`notices
      ensures chaosPoints == points
      ensures notices == old(notices) + [PointsChanged(points, 0)]
    {
      chaosPoints := points;
      notices := notices + [PointsChanged(points, 0)];
    }

    /** The keydown handler: in reverse mode a printable key without Ctrl or
        Meta rewrites the input and moves the caret to 1; otherwise the key
        takes its default course (None). */
    function KeyDown(value: string, start: nat, end: nat, key: string, ctrl: bool, meta: bool): (r: Option<InputEdit>)
      requires start <= end <= |value|
      reads this`isReverseActive
      ensures r.Some? <==> isReverseActive && |key| == 1 && !ctrl && !meta
      ensures r.Some? ==> r.value == InputEdit(ReverseInsert(value, start, end, key[0]), 1, 1)
    {
      if !isReverseActive then None
      else if |key| == 1 && !ctrl && !meta then Some(InputEdit(ReverseInsert(value, start, end, key[0]), 1, 1))
      else None
    }
  }
}
