/** The game's persistent settings: the music and sound switches and the
    top-five high-score table, kept in a preferences store as booleans and a
    `;`-separated string. */
module Settings {
  import opened Java

  const MUSIC_ON: string := "music-on"
  const SOUND_ON: string := "sound-on"
  const HIGHSCORES: string := "highscores"
  /** What an empty store yields for the table: five zeros. */
  const DEFAULT_HIGHSCORES: string := "0;0;0;0;0"
  /** The shift loop of `addScore` starts at this index. */
  const LAST_RANK: nat := 4

  // ------------------------------------------------------- the stored string

  /** The string `addScore` stores: every entry followed by `;`. */
  function Serialize(a: seq<int>): string
  {
    if a == [] then "" else IntToString(a[0]) + ";" + Serialize(a[1..])
  }

  /** Appending an entry appends its spelling and a `;`, which is how the
      loop of `addScore` builds the string. */
  lemma {:induction false} SerializeSnoc(a: seq<int>, x: int)
    ensures Serialize(a + [x]) == Serialize(a) + IntToString(x) + ";"
    decreases |a|
  {
    var tail := IntToString(x) + ";";
    if a == [] {
      assert [x][1..] == [];
      assert Serialize([x]) == tail + "";
    } else {
      var head := IntToString(a[0]) + ";";
      var b := a + [x];
      assert b[0] == a[0];
      assert b[1..] == a[1..] + [x];
      SerializeSnoc(a[1..], x);
      calc {
        Serialize(b);
        head + Serialize(b[1..]);
        head + (Serialize(a[1..]) + tail);
        { ConcatAssoc(head, Serialize(a[1..]), tail); }
        (head + Serialize(a[1..])) + tail;
        Serialize(a) + tail;
      }
    }
  }

  lemma ConcatAssoc(p: string, q: string, r: string)
    ensures p + (q + r) == (p + q) + r
  {
  }

  function Spellings(a: seq<int>): (r: seq<string>)
    ensures |r| == |a|
  {
    if a == [] then [] else [IntToString(a[0])] + Spellings(a[1..])
  }

  predicate AllInts(a: seq<int>) { forall k | 0 <= k < |a| :: IsInt(a[k]) }

  lemma {:induction false} FieldsOfSerialize(a: seq<int>)
    requires AllInts(a)
    ensures Fields(Serialize(a), ';') == Spellings(a) + [""]
    decreases |a|
  {
    if a != [] {
      IntToStringRoundTrip(a[0]);
      FieldsAfterWord(IntToString(a[0]), ';', Serialize(a[1..]));
      FieldsOfSerialize(a[1..]);
    }
  }

  lemma {:induction false} SpellingsNonEmpty(a: seq<int>)
    requires AllInts(a)
    ensures forall k | 0 <= k < |a| :: Spellings(a)[k] != ""
    decreases |a|
  {
    if a != [] {
      IntToStringRoundTrip(a[0]);
      SpellingsNonEmpty(a[1..]);
      assert forall k | 1 <= k < |a| :: Spellings(a)[k] == Spellings(a[1..])[k - 1];
    }
  }

  /** Dropping the trailing empty fields after a last non-empty one. */
  lemma DropOneTrailingEmpty(fs: seq<string>)
    requires |fs| >= 1 && fs[|fs| - 1] != ""
    ensures DropTrailingEmpty(fs + [""]) == fs
  {
    assert (fs + [""])[..|fs + [""]| - 1] == fs;
  }

  /** The fields `split(";")` returns for a stored table are the spellings
      of its entries: the empty field after the last `;` is dropped. */
  lemma SplitSerialize(a: seq<int>)
    requires |a| >= 1 && AllInts(a)
    ensures Split(Serialize(a), ';') == Spellings(a)
  {
    FieldsOfSerialize(a);
    SpellingsNonEmpty(a);
    DropOneTrailingEmpty(Spellings(a));
    var w := IntToString(a[0]);
    assert Serialize(a) == w + ";" + Serialize(a[1..]);
    assert Serialize(a)[|w|] == ';';
  }

  // ---------------------------------------------------------------- loading

  /** The values `Integer.valueOf` gives the fields, up to the first field it
      rejects. */
  function ParsedPrefix(fields: seq<string>): (r: seq<int>)
    ensures |r| <= |fields|
    ensures forall k | 0 <= k < |r| :: ParseInt(fields[k]) == Some(r[k])
    ensures |r| < |fields| ==> ParseInt(fields[|r|]).None?
  {
    if fields == [] then []
    else match ParseInt(fields[0])
      case None => []
      case Some(v) =>
        var rest := ParsedPrefix(fields[1..]);
        assert forall k | 1 <= k < |rest| + 1 :: fields[k] == fields[1..][k - 1];
        [v] + rest
  }

  function Zeros(n: nat): (r: seq<int>)
    ensures |r| == n && forall k | 0 <= k < n :: r[k] == 0
  {
    if n == 0 then [] else Zeros(n - 1) + [0]
  }

  /** The array `loadHighScores` leaves: one slot per field, filled up to the
      first field that does not parse, zero after it. */
  function LoadedTable(stored: string): (t: seq<int>)
    ensures |t| == |Split(stored, ';')|
  {
    var fields := Split(stored, ';');
    var p := ParsedPrefix(fields);
    p + Zeros(|fields| - |p|)
  }

  /** Whether every field of the stored string parses. */
  predicate Loads(stored: string)
  {
    |ParsedPrefix(Split(stored, ';'))| == |Split(stored, ';')|
  }

  lemma {:induction false} ParseSpellings(a: seq<int>)
    requires AllInts(a)
    ensures ParsedPrefix(Spellings(a)) == a
    decreases |a|
  {
    if a != [] {
      IntToStringRoundTrip(a[0]);
      assert Spellings(a)[1..] == Spellings(a[1..]);
      ParseSpellings(a[1..]);
    }
  }

  /** A stored table loads back as the same table. */
  lemma StoredTableRoundTrip(a: seq<int>)
    requires |a| >= 1 && AllInts(a)
    ensures Loads(Serialize(a)) && LoadedTable(Serialize(a)) == a
  {
    SplitSerialize(a);
    ParseSpellings(a);
    assert Zeros(0) == [];
  }

  /** The one table the round trip misses: an empty table is stored as the
      empty string, whose single empty field does not parse. */
  lemma EmptyTableDoesNotReload()
    ensures Serialize([]) == "" && Split(Serialize([]), ';') == [""]
    ensures !Loads(Serialize([]))
  {
    assert ';' !in "";
  }

  lemma FieldsOfZero()
    ensures Fields("0", ';') == ["0"]
  {
    var z := "0";
    assert z[1..] == "" && Fields(z[1..], ';') == [""];
    assert [z[0]] + "" == z;
  }

  lemma FieldsOfDefault()
    ensures Fields(DEFAULT_HIGHSCORES, ';') == ["0", "0", "0", "0", "0"]
  {
    var z := "0";
    FieldsOfZero();
    FieldsAfterWord(z, ';', z);
    assert "0;0" == z + [';'] + z;
    FieldsAfterWord(z, ';', "0;0");
    assert "0;0;0" == z + [';'] + "0;0";
    FieldsAfterWord(z, ';', "0;0;0");
    assert "0;0;0;0" == z + [';'] + "0;0;0";
    FieldsAfterWord(z, ';', "0;0;0;0");
    assert DEFAULT_HIGHSCORES == z + [';'] + "0;0;0;0";
  }

  lemma ParseZero()
    ensures ParseInt("0") == Some(0)
  {
    IntToStringRoundTrip(0);
    assert IntToString(0) == NatToString(0) == [DigitChar(0)] == "0";
  }

  lemma SplitDefault()
    ensures Split(DEFAULT_HIGHSCORES, ';') == ["0", "0", "0", "0", "0"]
  {
    FieldsOfDefault();
    assert DEFAULT_HIGHSCORES[1] == ';';
    var fs := ["0", "0", "0", "0", "0"];
    assert DropTrailingEmpty(fs) == fs;
  }

  lemma ParsedFiveZeros()
    ensures ParsedPrefix(["0", "0", "0", "0", "0"]) == [0, 0, 0, 0, 0]
  {
    var fs := ["0", "0", "0", "0", "0"];
    ParseZero();
    assert ParsedPrefix(fs[4..]) == [0];
    assert fs[3..][1..] == fs[4..];
    assert ParsedPrefix(fs[3..]) == [0, 0];
    assert fs[2..][1..] == fs[3..];
    assert ParsedPrefix(fs[2..]) == [0, 0, 0];
    assert fs[1..][1..] == fs[2..];
    assert ParsedPrefix(fs[1..]) == [0, 0, 0, 0];
  }

  /** An empty store loads as five zeros. */
  lemma DefaultTableIsFiveZeros()
    ensures Loads(DEFAULT_HIGHSCORES) && LoadedTable(DEFAULT_HIGHSCORES) == [0, 0, 0, 0, 0]
  {
    SplitDefault();
    ParsedFiveZeros();
    assert Zeros(0) == [];
  }

  // -------------------------------------------------------------- insertion

  /** The index of the first entry strictly below the score, or the table's
      length when there is none. */
  function FirstSmaller(a: seq<int>, score: int): (i: nat)
    ensures i <= |a|
    ensures forall k | 0 <= k < i :: a[k] >= score
    ensures i < |a| ==> a[i] < score
  {
    if a == [] then 0
    else if a[0] < score then 0
    else 1 + FirstSmaller(a[1..], score)
  }

  /** The shift loop runs from index 4 down, so a table shorter than five
      with an entry below the score is indexed out of bounds. */
  predicate InsertOutOfBounds(a: seq<int>, score: int)
  {
    FirstSmaller(a, score) < |a| < LAST_RANK + 1
  }

  /** The table after `addScore`: the score at the first index whose entry is
      smaller, the entries from there up to index 3 moved down one place, the
      entry at index 4 dropped, and the rest untouched. */
  function InsertScore(a: seq<int>, score: int): (r: seq<int>)
    requires !InsertOutOfBounds(a, score)
    ensures |r| == |a|
    // nothing below the score: the table is unchanged
    ensures (forall k | 0 <= k < |a| :: a[k] >= score) ==> r == a
    // otherwise the score sits after every entry at least as large
    ensures var i := FirstSmaller(a, score);
      i < |a| ==> r[i] == score && r[..i] == a[..i]
  {
    var i := FirstSmaller(a, score);
    seq(|a|, k requires 0 <= k < |a| =>
      if i == |a| || k < i then a[k]
      else if k == i then score
      else if k <= LAST_RANK then a[k - 1]
      else a[k])
  }

  predicate NonIncreasing(a: seq<int>)
  {
    forall j, k | 0 <= j < k < |a| :: a[j] >= a[k]
  }

  /** A table in descending order stays in descending order. */
  lemma InsertKeepsOrder(a: seq<int>, score: int)
    requires !InsertOutOfBounds(a, score) && NonIncreasing(a)
    ensures NonIncreasing(InsertScore(a, score))
  {
    var r := InsertScore(a, score);
    var i := FirstSmaller(a, score);
    if i < |a| {
      forall j, k | 0 <= j < k < |a|
        ensures r[j] >= r[k]
      {
        if k <= i {
        } else if k <= LAST_RANK {
          assert r[k] == a[k - 1];
          assert k - 1 >= i;
          assert a[i] < score;
        } else {
          assert r[k] == a[k];
        }
      }
    }
  }

  /** For a five-entry table, an insertion keeps the best four entries and
      the score, and drops the fifth. */
  lemma InsertDropsFifth(a: seq<int>, score: int)
    requires |a| == 5 && FirstSmaller(a, score) < 5
    ensures multiset(InsertScore(a, score)) == multiset(a[..4]) + multiset{score}
  {
    var i := FirstSmaller(a, score);
    var r := InsertScore(a, score);
    var s := a[..i] + [score] + a[i..4];
    forall k | 0 <= k < 5
      ensures r[k] == s[k]
    {
      if k > i {
        assert s[k] == a[i..4][k - i - 1];
      }
    }
    assert r == s;
    assert a[..4] == a[..i] + a[i..4];
  }

  // --------------------------------------------------------------- Settings

  class Settings {
    /** The preference store: booleans and strings by key. */
    var booleans: map<string, bool>
    var strings: map<string, string>
    /** The table in memory; null until first loaded. */
    var highscores: array?<int>

    constructor (booleans: map<string, bool>, strings: map<string, string>)
      ensures this.booleans == booleans && this.strings == strings && highscores == null
    {
      this.booleans := booleans;
      this.strings := strings;
      highscores := null;
    }

    /** The stored table, or the default when none is stored. */
    function StoredScores(): string
      reads this
    {
      if HIGHSCORES in strings then strings[HIGHSCORES] else DEFAULT_HIGHSCORES
    }

    /** `isMusicOn`: on unless switched off. */
    function IsMusicOn(): (on: bool)
      reads this
      ensures MUSIC_ON !in booleans ==> on
      ensures MUSIC_ON in booleans ==> on == booleans[MUSIC_ON]
    {
      if MUSIC_ON in booleans then booleans[MUSIC_ON] else true
    }

    /** `isSoundOn`: on unless switched off. */
    function IsSoundOn(): (on: bool)
      reads this
      ensures SOUND_ON !in booleans ==> on
      ensures SOUND_ON in booleans ==> on == booleans[SOUND_ON]
    {
      if SOUND_ON in booleans then booleans[SOUND_ON] else true
    }

    /** `setMusicOn` / `setMusicOff`. */
    method SetMusic(on: bool)
      modifies this
      ensures IsMusicOn() == on && IsSoundOn() == old(IsSoundOn())
      ensures booleans == old(booleans)[MUSIC_ON := on]
      ensures strings == old(strings) && highscores == old(highscores)
    {
      booleans := booleans[MUSIC_ON := on];
    }

    /** `setSoundOnOn` / `setSoundOff`. */
    method SetSound(on: bool)
      modifies this
      ensures IsSoundOn() == on && IsMusicOn() == old(IsMusicOn())
      ensures booleans == old(booleans)[SOUND_ON := on]
      ensures strings == old(strings) && highscores == old(highscores)
    {
      booleans := booleans[SOUND_ON := on];
    }

    /** `loadHighScores`: a new array with one slot per field of the stored
        string, filled in order; `ok` is false when a field does not parse,
        where `Integer.valueOf` throws and leaves the array part-filled. */
    method LoadHighScores() returns (ok: bool)
      modifies this
      ensures highscores != null && fresh(highscores)
      ensures highscores[..] == LoadedTable(old(StoredScores()))
      ensures ok <==> Loads(old(StoredScores()))
      ensures ok ==> AllInts(highscores[..])
      ensures booleans == old(booleans) && strings == old(strings)
    {
      ghost var stored := StoredScores();
      var fields := Split(StoredScores(), ';');
      var a := new int[|fields|](_ => 0);
      ok := ParseInto(a, fields);
      assert a[..] == LoadedTable(stored);
      assert ok ==> AllInts(a[..]) by {
        if ok {
          forall k | 0 <= k < a.Length ensures IsInt(a[k]) {
            assert ParseInt(fields[k]) == Some(a[k]);
          }
        }
      }
      highscores := a;
    }

    /** The loop of `loadHighScores`: each field parsed into its slot, until
        a field does not parse. */
    static method ParseInto(a: array<int>, fields: seq<string>) returns (ok: bool)
      requires a.Length == |fields| && forall k | 0 <= k < a.Length :: a[k] == 0
      modifies a
      ensures a[..] == ParsedPrefix(fields) + Zeros(|fields| - |ParsedPrefix(fields)|)
      ensures ok <==> |ParsedPrefix(fields)| == |fields|
      ensures ok ==> forall k | 0 <= k < a.Length :: ParseInt(fields[k]) == Some(a[k])
    {
      ghost var p := ParsedPrefix(fields);
      var i := 0;
      while i < |fields|
        invariant 0 <= i <= |p| && i <= |fields|
        invariant forall k | 0 <= k < i :: a[k] == p[k]
        invariant forall k | i <= k < a.Length :: a[k] == 0
      {
        match ParseInt(fields[i])
        case None =>
          assert i == |p|;
          assert a[..] == p + Zeros(|fields| - |p|);
          return false;
        case Some(v) =>
          a[i] := v;
        i := i + 1;
      }
      assert a[..] == p;
      assert Zeros(0) == [];
      return true;
    }

    /** The string `addScore` stores, built entry by entry. */
    method BuildScoresString(a: array<int>) returns (s: string)
      ensures s == Serialize(a[..])
    {
      s := "";
      var i := 0;
      while i < a.Length
        invariant 0 <= i <= a.Length
        invariant s == Serialize(a[..i])
      {
        SerializeSnoc(a[..i], a[i]);
        assert a[..i + 1] == a[..i] + [a[i]];
        s := s + IntToString(a[i]) + ";";
        i := i + 1;
      }
      assert a[..i] == a[..];
    }

    /** `addScore`: the table is loaded if need be, the score inserted, and
        the table stored. `ok` is false when loading throws, or when the
        shift loop indexes past a table shorter than five; nothing is stored
        then. */
    method AddScore(score: int) returns (ok: bool)
      requires IsInt(score)
      requires highscores != null ==> AllInts(highscores[..])
      modifies this, highscores
      ensures highscores != null && booleans == old(booleans)
      ensures old(highscores) != null ==> highscores == old(highscores)
      ensures var before := if old(highscores) != null then old(highscores[..]) else LoadedTable(old(StoredScores()));
        && (ok <==> (old(highscores) != null || Loads(old(StoredScores()))) && !InsertOutOfBounds(before, score))
        && (ok ==> highscores[..] == InsertScore(before, score))
        && (!ok ==> highscores[..] == before && strings == old(strings))
      // what is stored loads back as the table in memory
      ensures ok ==> strings == old(strings)[HIGHSCORES := Serialize(highscores[..])]
      ensures ok && highscores.Length >= 1 ==> Loads(StoredScores()) && LoadedTable(StoredScores()) == highscores[..]
    {
      if highscores == null {
        ok := LoadHighScores();
        if !ok {
          return;
        }
      }
      ok := InsertAndStore(score);
    }

    /** The part of `addScore` after loading: the score placed in the table
        in memory and, when that succeeds, the table stored. */
    method InsertAndStore(score: int) returns (ok: bool)
      requires IsInt(score) && highscores != null && AllInts(highscores[..])
      modifies this, highscores
      ensures highscores == old(highscores) && booleans == old(booleans)
      ensures ok <==> !InsertOutOfBounds(old(highscores[..]), score)
      ensures ok ==> highscores[..] == InsertScore(old(highscores[..]), score)
      ensures ok ==> strings == old(strings)[HIGHSCORES := Serialize(highscores[..])]
      ensures !ok ==> highscores[..] == old(highscores[..]) && strings == old(strings)
      ensures ok && highscores.Length >= 1 ==> Loads(StoredScores()) && LoadedTable(StoredScores()) == highscores[..]
    {
      var a := highscores;
      ok := InsertInPlace(a, score);
      if !ok {
        return;
      }
      assert AllInts(a[..]);
      var s := BuildScoresString(a);
      strings := strings[HIGHSCORES := s];
      if a.Length >= 1 {
        StoredTableRoundTrip(a[..]);
      }
    }

    /** The two loops of `addScore` that place the score: find the first
        smaller entry, shift the entries after it down from index 4, and
        write the score. `ok` is false when the shift indexes past the array,
        which it does before changing anything. */
    static method InsertInPlace(a: array<int>, score: int) returns (ok: bool)
      modifies a
      ensures ok <==> !InsertOutOfBounds(old(a[..]), score)
      ensures ok ==> a[..] == InsertScore(old(a[..]), score)
      ensures !ok ==> a[..] == old(a[..])
    {
      ghost var before := a[..];
      ghost var pos := FirstSmaller(before, score);
      ghost var done := false;
      var i := 0;
      while i < a.Length
        invariant 0 <= i <= pos && a[..] == before && !done
      {
        if a[i] < score {
          assert i == pos;
          if a.Length < LAST_RANK + 1 {
            return false;
          }
          var j := LAST_RANK;
          while j > i
            invariant (if i < LAST_RANK then i else LAST_RANK) <= j <= LAST_RANK < a.Length
            invariant forall k | 0 <= k <= j :: a[k] == before[k]
            invariant forall k | j < k <= LAST_RANK :: a[k] == before[k - 1]
            invariant forall k | LAST_RANK < k < a.Length :: a[k] == before[k]
          {
            a[j] := a[j - 1];
            j := j - 1;
          }
          a[i] := score;
          assert forall k | 0 <= k < a.Length :: a[k] == InsertScore(before, score)[k];
          done := true;
          break;
        }
        i := i + 1;
      }
      if !done {
        assert pos == |before|;
      }
      assert a[..] == InsertScore(before, score);
      return true;
    }

    /** `getHighscore`: the top entry, loading the table first if need be.
        `ok` is false when loading throws or the table is empty. */
    method GetHighscore() returns (ok: bool, best: int)
      modifies this
      ensures highscores != null
      ensures old(highscores) != null ==> highscores == old(highscores)
      ensures var table := if old(highscores) != null then old(highscores[..]) else LoadedTable(old(StoredScores()));
        && highscores[..] == table
        && (ok <==> (old(highscores) != null || Loads(old(StoredScores()))) && |table| >= 1)
        && (ok ==> best == table[0])
      ensures booleans == old(booleans) && strings == old(strings)
    {
      if highscores == null {
        ok := LoadHighScores();
        if !ok {
          return false, 0;
        }
      }
      if highscores.Length == 0 {
        return false, 0;
      }
      return true, highscores[0];
    }
  }
}
