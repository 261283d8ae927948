/**
 * The values the repository computes from a finished encounter before it binds them into
 * its SQL statements: the encounter DPS, the misc record, the preview row of the list view
 * and the offset of a page of previews. Statements, transactions and serialisation are not
 * modelled; each function returns the value that would be bound as a parameter.
 */
module Repository {
  import opened Types

  // ------------------------------------------------------------------ integer division

  /**
   * Rust's `/` on signed integers by a positive divisor: the quotient rounded toward zero,
   * so the remainder has the sign of the dividend (Dafny's own `/` is Euclidean).
   */
  function Quot(a: int, d: int): (q: int)
    requires d > 0
    ensures a >= 0 ==> 0 <= a - q * d < d
    ensures a < 0 ==> -d < a - q * d <= 0
  {
    if a >= 0 then a / d else -((-a) / d)
  }

  /** The quotient `Quot` computes is the only one with a remainder of that sign and size. */
  lemma {:induction false} QuotUnique(a: int, d: int, q: int)
    requires d > 0
    requires a >= 0 ==> 0 <= a - q * d < d
    requires a < 0 ==> -d < a - q * d <= 0
    ensures q == Quot(a, d)
  {
    var r := Quot(a, d);
    MulMonotone(q, r - 1, d);
    MulMonotone(r, q - 1, d);
  }

  /** On a non-negative dividend the quotient lies between 0 and the dividend. */
  lemma QuotOfNatural(a: int, d: int)
    requires a >= 0 && d > 0
    ensures 0 <= Quot(a, d) <= a
  {
    var q := Quot(a, d);
    MulMonotone(q, -1, d);
    MulMonotone(1, d, q);
  }

  lemma MulMonotone(x: int, y: int, d: int)
    ensures x <= y && d > 0 ==> x * d <= y * d
  {
  }

  // ------------------------------------------------------------------ encounter row

  const MillisPerSecond: int := 1000

  /** `max(duration / 1000, 1)`: the whole seconds the fight lasted, never less than one. */
  function DurationSeconds(e: Encounter): (secs: int)
    ensures secs >= 1
    ensures e.lastCombatPacket - e.fightStart < 2 * MillisPerSecond ==> secs == 1
    ensures e.lastCombatPacket - e.fightStart >= MillisPerSecond ==>
              secs * MillisPerSecond <= e.lastCombatPacket - e.fightStart < (secs + 1) * MillisPerSecond
  {
    var whole := Quot(e.lastCombatPacket - e.fightStart, MillisPerSecond);
    if whole > 1 then whole else 1
  }

  /** The DPS stored with the encounter: the total damage over the floored duration in seconds. */
  function EncounterDps(e: Encounter): (dps: int)
    ensures e.totalDamageDealt >= 0 ==> 0 <= dps <= e.totalDamageDealt
    ensures e.totalDamageDealt >= 0 ==> 0 <= e.totalDamageDealt - dps * DurationSeconds(e) < DurationSeconds(e)
  {
    if e.totalDamageDealt >= 0 then
      QuotOfNatural(e.totalDamageDealt, DurationSeconds(e));
      Quot(e.totalDamageDealt, DurationSeconds(e))
    else Quot(e.totalDamageDealt, DurationSeconds(e))
  }

  /** A fight shorter than two seconds divides by one: its DPS is its total damage. */
  lemma ShortFightDps(e: Encounter)
    requires e.lastCombatPacket - e.fightStart < 2 * MillisPerSecond
    ensures EncounterDps(e) == e.totalDamageDealt
  {
    QuotUnique(e.totalDamageDealt, 1, e.totalDamageDealt);
  }

  /** The JSON `misc` column, reduced to the fields the encounter row sets. */
  datatype EncounterMisc = EncounterMisc(
    raidClear: Option<bool>,
    partyInfo: Option<map<int, seq<string>>>,
    region: Option<string>,
    version: Option<string>,
    rdpsValid: Option<bool>,
    rdpsMessage: Option<string>,
    ntpFightStart: Option<int>,
    manualSave: Option<bool>)

  const InvalidStatsMessage: string := "invalid_stats"

  /** The parties keyed by their position in the party list. */
  function IndexGroups(party: Party): (groups: map<int, seq<string>>)
    ensures forall i :: i in groups <==> 0 <= i < |party|
    ensures forall i :: 0 <= i < |party| ==> groups[i] == party[i]
    decreases |party|
  {
    if |party| == 0 then map[]
    else IndexGroups(party[..|party| - 1])[|party| - 1 := party[|party| - 1]]
  }

  /** The misc record of a saved encounter. */
  function Misc(raidClear: bool, party: Party, region: Option<string>, meterVersion: string,
                rdpsValid: bool, ntpFightStart: int, manual: bool): (m: EncounterMisc)
    ensures m.raidClear == Some(true) <==> raidClear
    ensures m.raidClear.None? <==> !raidClear
    ensures m.rdpsMessage == Some(InvalidStatsMessage) <==> !rdpsValid
    ensures m.rdpsMessage.None? <==> rdpsValid
    ensures m.partyInfo.None? <==> |party| == 0
    ensures m.partyInfo.Some? ==> forall i :: i in m.partyInfo.value <==> 0 <= i < |party|
    ensures m.partyInfo.Some? ==> forall i :: 0 <= i < |party| ==> m.partyInfo.value[i] == party[i]
    ensures m.region == region && m.version == Some(meterVersion)
    ensures m.rdpsValid == Some(rdpsValid) && m.ntpFightStart == Some(ntpFightStart)
    ensures m.manualSave == Some(manual)
  {
    EncounterMisc(
      if raidClear then Some(true) else None,
      if |party| == 0 then None else Some(IndexGroups(party)),
      region,
      Some(meterVersion),
      Some(rdpsValid),
      if rdpsValid then None else Some(InvalidStatsMessage),
      Some(ntpFightStart),
      Some(manual))
  }

  /** Reading the groups back in key order gives the party list that was stored. */
  lemma MiscPartyRoundTrip(raidClear: bool, party: Party, region: Option<string>, meterVersion: string,
                           rdpsValid: bool, ntpFightStart: int, manual: bool)
    requires |party| > 0
    ensures var groups := Misc(raidClear, party, region, meterVersion, rdpsValid, ntpFightStart, manual).partyInfo.value;
            InKeyOrder(groups, |party|) == party
  {
    var groups := Misc(raidClear, party, region, meterVersion, rdpsValid, ntpFightStart, manual).partyInfo.value;
    assert forall i :: 0 <= i < |party| ==> InKeyOrder(groups, |party|)[i] == party[i];
  }

  /** The values of a map keyed `0..n-1`, in key order. */
  function InKeyOrder(groups: map<int, seq<string>>, n: nat): (parties: Party)
    requires forall i :: 0 <= i < n ==> i in groups
    ensures |parties| == n
    ensures forall i :: 0 <= i < n ==> parties[i] == groups[i]
  {
    seq(n, i requires 0 <= i < n => groups[i])
  }

  // ------------------------------------------------------------------ preview players

  /** The entities the preview lists: real players or the local player, with some damage dealt. */
  predicate IsPreviewPlayer(e: EncounterEntity, localPlayer: string)
  {
    ((e.entityType == Player && e.classId != 0 && e.maxHp > 0) || e.name == localPlayer)
      && e.damageDealt > 0
  }

  /** The entities of `values` that the preview lists, in the order `values` holds them. */
  function PreviewPlayers(values: seq<EncounterEntity>, localPlayer: string): (players: seq<EncounterEntity>)
    ensures forall e :: multiset(players)[e] == if IsPreviewPlayer(e, localPlayer) then multiset(values)[e] else 0
    ensures forall e :: e in players <==> e in values && IsPreviewPlayer(e, localPlayer)
  {
    if |values| == 0 then []
    else
      assert values == [values[0]] + values[1..];
      (if IsPreviewPlayer(values[0], localPlayer) then [values[0]] else [])
        + PreviewPlayers(values[1..], localPlayer)
  }

  /** Filtering keeps the relative order: the players are a subsequence of the values. */
  lemma {:induction false} PreviewKeepsOrder(values: seq<EncounterEntity>, localPlayer: string)
    ensures IsSubsequence(PreviewPlayers(values, localPlayer), values)
    decreases |values|
  {
    if |values| > 0 {
      PreviewKeepsOrder(values[1..], localPlayer);
      var rest := PreviewPlayers(values[1..], localPlayer);
      if IsPreviewPlayer(values[0], localPlayer) {
        assert PreviewPlayers(values, localPlayer) == [values[0]] + rest;
      } else {
        assert PreviewPlayers(values, localPlayer) == rest;
      }
    }
  }

  /** `a` can be obtained from `b` by deleting elements. */
  predicate IsSubsequence<T(==)>(a: seq<T>, b: seq<T>)
    decreases |b|
  {
    |a| == 0 || (|b| > 0 && ((a[0] == b[0] && IsSubsequence(a[1..], b[1..])) || IsSubsequence(a, b[1..])))
  }

  // ------------------------------------------------------------------ ordering

  /** Non-increasing by damage dealt; the order among equal damage is left open. */
  predicate ByDamageDesc(s: seq<EncounterEntity>)
  {
    forall i, j :: 0 <= i < j < |s| ==> s[i].damageDealt >= s[j].damageDealt
  }

  /** Places `e` before the first entry that dealt no more damage. */
  function InsertByDamage(e: EncounterEntity, s: seq<EncounterEntity>): (r: seq<EncounterEntity>)
    ensures multiset(r) == multiset(s) + multiset{e}
  {
    if |s| == 0 || e.damageDealt >= s[0].damageDealt then [e] + s
    else
      assert s == [s[0]] + s[1..];
      [s[0]] + InsertByDamage(e, s[1..])
  }

  lemma {:induction false} InsertKeepsOrder(e: EncounterEntity, s: seq<EncounterEntity>)
    requires ByDamageDesc(s)
    ensures ByDamageDesc(InsertByDamage(e, s))
    decreases |s|
  {
    if |s| > 0 && e.damageDealt < s[0].damageDealt {
      var rest := InsertByDamage(e, s[1..]);
      InsertKeepsOrder(e, s[1..]);
      InsertBounded(e, s[1..], s[0].damageDealt);
      ConsKeepsOrder(s[0], rest);
    }
  }

  /** Entries that all dealt at most `bound` still do after an insertion of such an entry. */
  lemma InsertBounded(e: EncounterEntity, s: seq<EncounterEntity>, bound: int)
    requires e.damageDealt <= bound
    requires forall x :: x in s ==> x.damageDealt <= bound
    ensures forall x :: x in InsertByDamage(e, s) ==> x.damageDealt <= bound
  {
    var r := InsertByDamage(e, s);
    forall x | x in r ensures x.damageDealt <= bound {
      assert x in multiset(r);
    }
  }

  /** An entry that dealt at least as much as every entry of an ordered list may head it. */
  lemma ConsKeepsOrder(h: EncounterEntity, rest: seq<EncounterEntity>)
    requires ByDamageDesc(rest)
    requires forall x :: x in rest ==> x.damageDealt <= h.damageDealt
    ensures ByDamageDesc([h] + rest)
  {
    var r := [h] + rest;
    forall i, j | 0 <= i < j < |r| ensures r[i].damageDealt >= r[j].damageDealt {
      assert r[j] == rest[j - 1];
      if i > 0 {
        assert r[i] == rest[i - 1];
      } else {
        assert rest[j - 1] in rest;
      }
    }
  }

  /** The preview's sort, which the source leaves unstable: one order among the permitted ones. */
  function SortByDamage(s: seq<EncounterEntity>): (r: seq<EncounterEntity>)
    ensures multiset(r) == multiset(s)
  {
    if |s| == 0 then []
    else
      assert s == [s[0]] + s[1..];
      InsertByDamage(s[0], SortByDamage(s[1..]))
  }

  /** The sort's result is in non-increasing order of damage. */
  lemma {:induction false} SortOrders(s: seq<EncounterEntity>)
    ensures ByDamageDesc(SortByDamage(s))
    decreases |s|
  {
    if |s| > 0 {
      SortOrders(s[1..]);
      InsertKeepsOrder(s[0], SortByDamage(s[1..]));
    }
  }

  /** Removing one entry of an ordered list leaves it ordered. */
  lemma RemoveKeepsOrder(b: seq<EncounterEntity>, i: nat)
    requires ByDamageDesc(b) && i < |b|
    ensures ByDamageDesc(b[..i] + b[i + 1..])
  {
    var b' := b[..i] + b[i + 1..];
    forall k, l | 0 <= k < l < |b'| ensures b'[k].damageDealt >= b'[l].damageDealt {
      var k' := if k < i then k else k + 1;
      var l' := if l < i then l else l + 1;
      assert b'[k] == b[k'] && b'[l] == b[l'];
    }
  }

  /** Any two orders the sort may produce list the same damage values in the same positions. */
  lemma {:induction false} SortedPermutationsAgree(a: seq<EncounterEntity>, b: seq<EncounterEntity>)
    requires ByDamageDesc(a) && ByDamageDesc(b) && multiset(a) == multiset(b)
    ensures |a| == |b|
    ensures forall k :: 0 <= k < |a| ==> a[k].damageDealt == b[k].damageDealt
    decreases |a|
  {
    assert |a| == |multiset(a)| == |multiset(b)| == |b|;
    if |a| > 0 {
      var i := HeadsAgree(a, b);
      var b' := RemoveMatchingHead(a, b, i);
      SortedPermutationsAgree(a[1..], b');
      TailsAgree(a, b, i);
    }
  }

  /** Without `a[0]`, found at `b[i]`, the two lists still hold the same entries in order. */
  lemma RemoveMatchingHead(a: seq<EncounterEntity>, b: seq<EncounterEntity>, i: nat) returns (b': seq<EncounterEntity>)
    requires ByDamageDesc(b) && multiset(a) == multiset(b) && |a| > 0 && i < |b| && b[i] == a[0]
    ensures b' == b[..i] + b[i + 1..]
    ensures ByDamageDesc(b') && multiset(a[1..]) == multiset(b')
  {
    b' := b[..i] + b[i + 1..];
    assert b == b[..i] + [b[i]] + b[i + 1..];
    assert multiset(b) == multiset(b[..i]) + multiset{a[0]} + multiset(b[i + 1..]);
    assert multiset(b') == multiset(b[..i]) + multiset(b[i + 1..]);
    assert a == [a[0]] + a[1..];
    assert multiset(a) == multiset{a[0]} + multiset(a[1..]);
    assert multiset(a[1..]) == multiset(a) - multiset{a[0]};
    assert multiset(b') == multiset(b) - multiset{a[0]};
    RemoveKeepsOrder(b, i);
  }

  /** Two ordered lists with the same entries start with the same damage; `i` finds `a[0]` in `b`. */
  lemma HeadsAgree(a: seq<EncounterEntity>, b: seq<EncounterEntity>) returns (i: nat)
    requires ByDamageDesc(a) && ByDamageDesc(b) && multiset(a) == multiset(b) && |a| > 0
    ensures i < |b| && b[i] == a[0] && a[0].damageDealt == b[0].damageDealt
  {
    assert a[0] in multiset(b);
    assert b[0] in multiset(a);
    i :| 0 <= i < |b| && b[i] == a[0];
    var j :| 0 <= j < |a| && a[j] == b[0];
  }

  /** Position-wise agreement of the tails carries over to the whole lists. */
  lemma TailsAgree(a: seq<EncounterEntity>, b: seq<EncounterEntity>, i: nat)
    requires ByDamageDesc(b) && |a| == |b| && i < |b| && b[i] == a[0]
    requires a[0].damageDealt == b[0].damageDealt
    requires var b' := b[..i] + b[i + 1..];
             forall k :: 0 <= k < |a| - 1 ==> a[1..][k].damageDealt == b'[k].damageDealt
    ensures forall k :: 0 <= k < |a| ==> a[k].damageDealt == b[k].damageDealt
  {
    var b' := b[..i] + b[i + 1..];
    forall k | 0 < k < |a| ensures a[k].damageDealt == b[k].damageDealt {
      assert a[k] == a[1..][k - 1];
      if k <= i {
        assert b'[k - 1] == b[k - 1];
        assert b[k - 1].damageDealt == b[k].damageDealt;
      } else {
        assert b'[k - 1] == b[k];
      }
    }
  }

  // ------------------------------------------------------------------ formatting

  function Digit(d: nat): (c: char)
    requires d < 10
    ensures '0' <= c <= '9'
    ensures (c as int) - ('0' as int) == d
  {
    ((d + '0' as int) as char)
  }

  predicate IsDigits(s: string)
  {
    forall k :: 0 <= k < |s| ==> '0' <= s[k] <= '9'
  }

  /** Rust's `Display` of an unsigned integer: decimal digits, no leading zero. */
  function DecimalString(n: nat): (s: string)
    ensures |s| >= 1 && IsDigits(s)
    ensures s[0] == '0' ==> n == 0
  {
    if n < 10 then [Digit(n)] else DecimalString(n / 10) + [Digit(n % 10)]
  }

  /** The number a string of decimal digits denotes. */
  function ParseDecimal(s: string): (n: nat)
    requires IsDigits(s)
  {
    if |s| == 0 then 0
    else 10 * ParseDecimal(s[..|s| - 1]) + ((s[|s| - 1] as int) - ('0' as int))
  }

  lemma {:induction false} DecimalRoundTrip(n: nat)
    ensures ParseDecimal(DecimalString(n)) == n
  {
    if n >= 10 {
      DecimalRoundTrip(n / 10);
      var s := DecimalString(n);
      assert s[..|s| - 1] == DecimalString(n / 10);
    }
  }

  /** One preview entry: `class_id:name`. */
  function Entry(e: EncounterEntity): string
  {
    DecimalString(e.classId) + ":" + e.name
  }

  /** The entries of `parts` with `sep` between each neighbouring pair (`join`). */
  function Join(parts: seq<string>, sep: char): (s: string)
    ensures |parts| == 0 ==> s == ""
    ensures |parts| == 1 ==> s == parts[0]
  {
    if |parts| == 0 then ""
    else if |parts| == 1 then parts[0]
    else parts[0] + [sep] + Join(parts[1..], sep)
  }

  /** The index of the first `c` in `s`, or `|s|` when there is none. */
  function IndexOf(s: string, c: char): (i: nat)
    ensures i <= |s|
    ensures i < |s| ==> s[i] == c
    ensures forall k :: 0 <= k < i ==> s[k] != c
  {
    if |s| == 0 then 0
    else if s[0] == c then 0
    else 1 + IndexOf(s[1..], c)
  }

  /** The pieces of `s` between occurrences of `sep` (`split`). */
  function Split(s: string, sep: char): (parts: seq<string>)
    ensures |parts| >= 1
    decreases |s|
  {
    var i := IndexOf(s, sep);
    if i == |s| then [s] else [s[..i]] + Split(s[i + 1..], sep)
  }

  /** Splitting a joined list at the separator gives the list back when no entry holds it. */
  lemma {:induction false} SplitJoin(parts: seq<string>, sep: char)
    requires |parts| >= 1
    requires forall k :: 0 <= k < |parts| ==> sep !in parts[k]
    ensures Split(Join(parts, sep), sep) == parts
    decreases |parts|
  {
    var s := Join(parts, sep);
    if |parts| == 1 {
      assert IndexOf(s, sep) == |s|;
    } else {
      var rest := Join(parts[1..], sep);
      assert s == parts[0] + [sep] + rest;
      assert IndexOf(s, sep) == |parts[0]| by {
        assert s[|parts[0]|] == sep;
        assert forall k :: 0 <= k < |parts[0]| ==> s[k] == parts[0][k];
      }
      assert s[..|parts[0]|] == parts[0];
      assert s[|parts[0]| + 1..] == rest;
      SplitJoin(parts[1..], sep);
      assert parts == [parts[0]] + parts[1..];
    }
  }

  /** Reads an entry back as its class id and name: the digits before the first `:`. */
  function ParseEntry(s: string): Option<(nat, string)>
  {
    var i := IndexOf(s, ':');
    if i == |s| || i == 0 || !IsDigits(s[..i]) then None
    else Some((ParseDecimal(s[..i]), s[i + 1..]))
  }

  lemma EntryRoundTrip(e: EncounterEntity)
    ensures ParseEntry(Entry(e)) == Some((e.classId, e.name))
  {
    var digits := DecimalString(e.classId);
    var s := Entry(e);
    assert IndexOf(s, ':') == |digits| by {
      assert s[|digits|] == ':';
      assert forall k :: 0 <= k < |digits| ==> s[k] == digits[k];
    }
    assert s[..|digits|] == digits;
    assert s[|digits| + 1..] == e.name;
    DecimalRoundTrip(e.classId);
  }

  /** The entries of `players`, one per player, in order. */
  function Entries(players: seq<EncounterEntity>): (entries: seq<string>)
    ensures |entries| == |players|
    ensures forall k :: 0 <= k < |players| ==> entries[k] == Entry(players[k])
  {
    seq(|players|, k requires 0 <= k < |players| => Entry(players[k]))
  }

  /** The `players` column of the preview row. */
  function PreviewList(players: seq<EncounterEntity>): string
  {
    Join(Entries(players), ',')
  }

  /**
   * When no player name holds a comma, the column splits into one entry per player, in
   * order, and each entry reads back as that player's class id and name.
   */
  lemma PreviewListRoundTrip(players: seq<EncounterEntity>)
    requires |players| >= 1
    requires forall k :: 0 <= k < |players| ==> ',' !in players[k].name
    ensures var parts := Split(PreviewList(players), ',');
            |parts| == |players| &&
            forall k :: 0 <= k < |players| ==> ParseEntry(parts[k]) == Some((players[k].classId, players[k].name))
  {
    var entries := Entries(players);
    forall k | 0 <= k < |players| ensures ',' !in entries[k] {
      var digits := DecimalString(players[k].classId);
      assert entries[k] == digits + ":" + players[k].name;
      assert ',' !in digits by {
        assert forall c :: c in digits ==> '0' <= c <= '9';
      }
    }
    SplitJoin(entries, ',');
    forall k | 0 <= k < |players| ensures ParseEntry(entries[k]) == Some((players[k].classId, players[k].name)) {
      EntryRoundTrip(players[k]);
    }
  }

  /** The preview of no players is the empty string. */
  lemma EmptyPreviewList()
    ensures PreviewList([]) == ""
  {
  }

  // ------------------------------------------------------------------ preview row

  /** The DPS of the first listed player named `localPlayer`, or 0 when none is listed. */
  function LocalPlayerDps(players: seq<EncounterEntity>, localPlayer: string): (dps: int)
    ensures (forall k :: 0 <= k < |players| ==> players[k].name != localPlayer) ==> dps == 0
    ensures forall k :: (0 <= k < |players| && players[k].name == localPlayer &&
                         (forall j :: 0 <= j < k ==> players[j].name != localPlayer)) ==> dps == players[k].dps
  {
    if |players| == 0 then 0
    else if players[0].name == localPlayer then players[0].dps
    else LocalPlayerDps(players[1..], localPlayer)
  }

  /** The preview row of a saved encounter, as its statement's parameters. */
  datatype PreviewRow = PreviewRow(
    fightStart: int,
    currentBossName: string,
    duration: int,
    players: string,
    difficulty: string,
    localPlayer: string,
    localPlayerDps: int,
    cleared: bool,
    bossOnlyDamage: bool)

  /**
   * The preview row of `e`. `values` is the encounter's entity map read in its iteration
   * order; the local DPS is looked up before the sort, the player list is rendered after it.
   */
  function Preview(e: Encounter, values: seq<EncounterEntity>, raidClear: bool, raidDifficulty: string): (row: PreviewRow)
    ensures row.fightStart + row.duration == e.lastCombatPacket
    ensures row.localPlayer == e.localPlayer && row.cleared == raidClear
    ensures row.difficulty == raidDifficulty && row.bossOnlyDamage == e.bossOnlyDamage
    ensures row.currentBossName == e.currentBossName
  {
    var players := PreviewPlayers(values, e.localPlayer);
    PreviewRow(
      e.fightStart,
      e.currentBossName,
      e.lastCombatPacket - e.fightStart,
      PreviewList(SortByDamage(players)),
      raidDifficulty,
      e.localPlayer,
      LocalPlayerDps(players, e.localPlayer),
      raidClear,
      e.bossOnlyDamage)
  }

  /**
   * The listed players are exactly the qualifying entities, in non-increasing order of
   * damage: the column splits into one entry per qualifying entity, each entry reading back
   * as that entity's class id and name.
   */
  lemma PreviewListsQualifyingPlayers(e: Encounter, values: seq<EncounterEntity>, raidClear: bool, raidDifficulty: string)
    requires forall k :: 0 <= k < |values| ==> ',' !in values[k].name
    requires exists k :: 0 <= k < |values| && IsPreviewPlayer(values[k], e.localPlayer)
    ensures exists listed: seq<EncounterEntity> ::
              multiset(listed) == multiset(PreviewPlayers(values, e.localPlayer)) &&
              ByDamageDesc(listed) &&
              var parts := Split(Preview(e, values, raidClear, raidDifficulty).players, ',');
              |parts| == |listed| &&
              forall k :: 0 <= k < |listed| ==> ParseEntry(parts[k]) == Some((listed[k].classId, listed[k].name))
  {
    var players := PreviewPlayers(values, e.localPlayer);
    var listed := SortByDamage(players);
    SortOrders(players);
    ListedWithoutCommas(values, e.localPlayer, listed);
    assert Preview(e, values, raidClear, raidDifficulty).players == PreviewList(listed);
    PreviewListRoundTrip(listed);
  }

  /** Some entity qualifies and no name holds a comma: the same holds of any reordering of the players. */
  lemma ListedWithoutCommas(values: seq<EncounterEntity>, localPlayer: string, listed: seq<EncounterEntity>)
    requires forall k :: 0 <= k < |values| ==> ',' !in values[k].name
    requires exists k :: 0 <= k < |values| && IsPreviewPlayer(values[k], localPlayer)
    requires multiset(listed) == multiset(PreviewPlayers(values, localPlayer))
    ensures |listed| >= 1
    ensures forall k :: 0 <= k < |listed| ==> ',' !in listed[k].name
  {
    var players := PreviewPlayers(values, localPlayer);
    var k :| 0 <= k < |values| && IsPreviewPlayer(values[k], localPlayer);
    assert values[k] in players;
    assert values[k] in multiset(listed);
    forall j | 0 <= j < |listed| ensures ',' !in listed[j].name {
      assert listed[j] in multiset(players);
    }
  }

  /** A row whose encounter lists no local player records a local DPS of 0. */
  lemma LocalDpsWithoutLocalPlayer(e: Encounter, values: seq<EncounterEntity>, raidClear: bool, raidDifficulty: string)
    requires forall v :: v in values && v.name == e.localPlayer ==> !IsPreviewPlayer(v, e.localPlayer)
    ensures Preview(e, values, raidClear, raidDifficulty).localPlayerDps == 0
  {
    var players := PreviewPlayers(values, e.localPlayer);
    forall k | 0 <= k < |players| ensures players[k].name != e.localPlayer {
      assert players[k] in players;
    }
  }

  /** A row whose local player is listed, under one entry of that name, records that entry's DPS. */
  lemma LocalDpsOfLocalPlayer(e: Encounter, values: seq<EncounterEntity>, raidClear: bool, raidDifficulty: string,
                              v: EncounterEntity)
    requires v in values && v.name == e.localPlayer && IsPreviewPlayer(v, e.localPlayer)
    requires forall w :: w in values && w.name == e.localPlayer ==> w == v
    ensures Preview(e, values, raidClear, raidDifficulty).localPlayerDps == v.dps
  {
    var players := PreviewPlayers(values, e.localPlayer);
    assert v in players;
    var k :| 0 <= k < |players| && players[k] == v;
    var first := FirstNamed(players, e.localPlayer, k);
    assert players[first] in players;
  }

  /** The first index at or before `k` whose entry is named `name`. */
  function FirstNamed(players: seq<EncounterEntity>, name: string, k: nat): (i: nat)
    requires k < |players| && players[k].name == name
    ensures i <= k && players[i].name == name
    ensures forall j :: 0 <= j < i ==> players[j].name != name
  {
    if exists j :: 0 <= j < k && players[j].name == name then
      var j :| 0 <= j < k && players[j].name == name;
      FirstNamed(players, name, j)
    else k
  }

  // ------------------------------------------------------------------ paging

  /** The number of previews that precede page `page` (pages count from 1). */
  function PageOffset(page: int, pageSize: int): (offset: int)
    ensures page >= 1 && pageSize >= 0 ==> offset >= 0
    ensures page == 1 ==> offset == 0
  {
    (page - 1) * pageSize
  }

  /** Consecutive pages are adjacent: each starts where the previous one ends. */
  lemma PagesAdjacent(page: int, pageSize: int)
    ensures PageOffset(page + 1, pageSize) == PageOffset(page, pageSize) + pageSize
  {
  }

  /** With a positive page size, every preview position falls on exactly one page. */
  lemma {:induction false} PagesTile(k: nat, pageSize: int)
    requires pageSize > 0
    ensures var p := k / pageSize + 1;
            PageOffset(p, pageSize) <= k < PageOffset(p, pageSize) + pageSize
    ensures forall q :: q >= 1 && PageOffset(q, pageSize) <= k < PageOffset(q, pageSize) + pageSize ==>
              q == k / pageSize + 1
  {
    QuotUnique(k, pageSize, k / pageSize);
    forall q | q >= 1 && PageOffset(q, pageSize) <= k < PageOffset(q, pageSize) + pageSize
      ensures q == k / pageSize + 1
    {
      QuotUnique(k, pageSize, q - 1);
    }
  }
}
