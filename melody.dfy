/**
 * The melody notation of the approach buzzer, as values: the space-separated
 * note string, the pitch of a note name, the parse of one token into a
 * frequency and a duration, the two parallel lists a melody string becomes,
 * and the sequence of sounds and silences that playing a melody or a sweep
 * produces.
 *
 * Frequencies stay symbolic: Pitch(p) is the equal-tempered tone p semitones
 * above A4, that is 440 * 2^(p/12) Hz, and Hz(x) is a plain number of hertz.
 */
module Melody {
  import opened Wrappers

  /** The exceptions a melody string can raise while it is parsed. */
  datatype PyError = IndexError | ValueError | ZeroDivisionError

  datatype Freq = Hz(hz: real) | Pitch(semitones: int) {
    /** `f != 0`: a tone is never 0 Hz. */
    predicate Audible() {
      this.Pitch? || this.hz != 0.0
    }
  }

  const Silence: Freq := Hz(0.0)

  // ----- Python string operations -----

  /** `s.split(sep)` with an explicit separator: empty pieces are kept, and there is always at least one piece. */
  function Split(s: string, sep: char): (r: seq<string>)
    ensures |r| >= 1
    decreases |s|
  {
    if |s| == 0 then [""]
    else
      var rest := Split(s[1..], sep);
      if s[0] == sep then [""] + rest
      else [[s[0]] + rest[0]] + rest[1..]
  }

  /** `sep.join(parts)`. */
  function Join(parts: seq<string>, sep: char): string
    requires |parts| >= 1
    decreases |parts|
  {
    if |parts| == 1 then parts[0] else parts[0] + [sep] + Join(parts[1..], sep)
  }

  lemma {:induction false} JoinOfSplit(s: string, sep: char)
    ensures Join(Split(s, sep), sep) == s
    decreases |s|
  {
    if |s| > 0 {
      var rest := Split(s[1..], sep);
      JoinOfSplit(s[1..], sep);
      if s[0] == sep {
        assert Split(s, sep)[1..] == rest;
        assert s == [sep] + s[1..];
      } else {
        var r := Split(s, sep);
        if |rest| == 1 {
          assert r == [[s[0]] + rest[0]];
        } else {
          assert r[1..] == rest[1..];
          assert Join(rest, sep) == rest[0] + [sep] + Join(rest[1..], sep);
        }
        assert s == [s[0]] + s[1..];
      }
    }
  }

  /** No piece of a split contains the separator. */
  lemma {:induction false} SplitPiecesHaveNoSeparator(s: string, sep: char)
    ensures forall i :: 0 <= i < |Split(s, sep)| ==> sep !in Split(s, sep)[i]
    decreases |s|
  {
    if |s| > 0 {
      SplitPiecesHaveNoSeparator(s[1..], sep);
    }
  }

  /** Splitting a join of separator-free pieces gives the pieces back. */
  lemma {:induction false} SplitOfJoin(parts: seq<string>, sep: char)
    requires |parts| >= 1
    requires forall i :: 0 <= i < |parts| ==> sep !in parts[i]
    ensures Split(Join(parts, sep), sep) == parts
    decreases |parts|, |parts[0]|
  {
    var p := parts[0];
    if |p| == 0 {
      if |parts| > 1 {
        SplitOfJoin(parts[1..], sep);
        var j := Join(parts, sep);
        assert j == [sep] + Join(parts[1..], sep);
        assert j[1..] == Join(parts[1..], sep);
        assert parts == [""] + parts[1..];
      }
    } else {
      var tail := [p[1..]] + parts[1..];
      assert forall i :: 0 <= i < |tail| ==> sep !in tail[i] by {
        forall i | 0 <= i < |tail| ensures sep !in tail[i] {
          if i == 0 {
            assert forall c :: c in p[1..] ==> c in p;
          } else {
            assert tail[i] == parts[i];
          }
        }
      }
      SplitOfJoin(tail, sep);
      var j := Join(parts, sep);
      assert p[0] in p;
      if |parts| == 1 {
        assert j == p;
        assert j[1..] == Join(tail, sep);
      } else {
        assert j[1..] == Join(tail, sep) by {
          assert j == p + [sep] + Join(parts[1..], sep);
          assert tail[1..] == parts[1..];
        }
      }
      assert j[0] == p[0];
      assert [[j[0]] + p[1..]] + parts[1..] == parts by {
        assert [j[0]] + p[1..] == p;
      }
    }
  }

  /** `s[i]` with Python's negative indices; None is the IndexError. */
  function PyAt(s: string, i: int): (r: Option<char>)
    ensures r.Some? <==> -|s| <= i < |s|
    ensures 0 <= i < |s| ==> r == Some(s[i])
    ensures -|s| <= i < 0 ==> r == Some(s[|s| + i])
  {
    if 0 <= i < |s| then Some(s[i])
    else if -|s| <= i < 0 then Some(s[|s| + i])
    else None
  }

  /** `s[0:stop]` with Python's negative and out-of-range stops: never raises. */
  function PyPrefix(s: string, stop: int): (r: string)
    ensures 0 <= stop <= |s| ==> r == s[..stop]
    ensures stop < 0 ==> r == s[..if |s| + stop < 0 then 0 else |s| + stop]
    ensures stop > |s| ==> r == s
  {
    if stop < 0 then s[..if |s| + stop < 0 then 0 else |s| + stop]
    else if stop > |s| then s
    else s[..stop]
  }

  /** The value of a decimal digit character. */
  function DigitValue(c: char): (d: Option<int>)
    ensures d.Some? <==> '0' <= c <= '9'
    ensures d.Some? ==> 0 <= d.value <= 9 && d.value == c as int - '0' as int
  {
    if '0' <= c <= '9' then Some(c as int - '0' as int) else None
  }

  /** `int(s[i])`: IndexError outside the string, ValueError for a non-digit. */
  function IntAt(s: string, i: int): (r: Result<int, PyError>)
    ensures r.Ok? ==> 0 <= r.value <= 9
  {
    match PyAt(s, i)
    case None => Err(IndexError)
    case Some(c) => if DigitValue(c).Some? then Ok(DigitValue(c).value) else Err(ValueError)
  }

  /** `float(s[i])`, for the same characters. */
  function FloatAt(s: string, i: int): (r: Result<real, PyError>)
    ensures r.Ok? <==> IntAt(s, i).Ok?
    ensures r.Ok? ==> r.value == IntAt(s, i).value as real
    ensures r.Err? ==> r.error == IntAt(s, i).error
  {
    match IntAt(s, i)
    case Ok(n) => Ok(n as real)
    case Err(e) => Err(e)
  }

  // ----- noteToFreq -----

  /** Semitones from A of each note name of the octave; any other name counts as A. */
  function NoteOffset(note: string): (n: int)
    ensures -9 <= n <= 2
  {
    if note == "C" then -9
    else if note == "Db" then -8
    else if note == "D" then -7
    else if note == "Eb" then -6
    else if note == "E" then -5
    else if note == "F" then -4
    else if note == "Gb" then -3
    else if note == "G" then -2
    else if note == "Ab" then -1
    else if note == "A" then 0
    else if note == "Bb" then 1
    else if note == "B" then 2
    else 0
  }

  /** The twelve names noteToFreq knows, in ascending pitch. */
  const NoteNames: seq<string> := ["C", "Db", "D", "Eb", "E", "F", "Gb", "G", "Ab", "A", "Bb", "B"]

  /** `f0 * 2^(n/12 - 4 + octave)` with f0 = 440: the pitch n + 12 * (octave - 4) semitones above A4. */
  function NoteToFreq(note: string, octave: int): (f: Freq)
    ensures f.Pitch? && 12 * (octave - 4) - 9 <= f.semitones <= 12 * (octave - 4) + 2
  {
    Pitch(NoteOffset(note) + 12 * (octave - 4))
  }

  /** The k-th known name sits k - 9 semitones from A: the names are a chromatic scale from C to B. */
  lemma NoteNamesAreChromatic(k: int)
    requires 0 <= k < |NoteNames|
    ensures NoteOffset(NoteNames[k]) == k - 9
  {
  }

  /** A4 is the reference tone, and an unknown name sounds as A. */
  lemma ConcertPitch(note: string)
    requires note !in NoteNames
    ensures NoteToFreq("A", 4) == Pitch(0)
    ensures forall octave :: NoteToFreq(note, octave) == NoteToFreq("A", octave)
  {
    assert forall k :: 0 <= k < |NoteNames| ==> NoteNames[k] != note;
  }

  /** One octave up is twelve semitones up, that is twice the frequency. */
  lemma OctaveUp(note: string, octave: int)
    ensures NoteToFreq(note, octave + 1).semitones == NoteToFreq(note, octave).semitones + 12
  {
  }

  /** The frequency in hertz of a whole number of octaves from A4: 440 * 2^k. */
  function OctaveHz(k: int): (hz: real)
    ensures hz > 0.0
    decreases if k < 0 then -k else k
  {
    if k == 0 then 440.0
    else if k > 0 then 2.0 * OctaveHz(k - 1)
    else OctaveHz(k + 1) / 2.0
  }

  /** The frequency in hertz of a pitch a whole number of octaves from A4. */
  function WholeOctaveHz(f: Freq): (hz: real)
    requires f.Pitch? && f.semitones % 12 == 0
    ensures hz > 0.0
  {
    OctaveHz(f.semitones / 12)
  }

  /** A in octave o is 440 * 2^(o - 4) Hz: 440 at o = 4, 880 at o = 5, 220 at o = 3. */
  lemma AOctaves()
    ensures WholeOctaveHz(NoteToFreq("A", 4)) == 440.0
    ensures WholeOctaveHz(NoteToFreq("A", 5)) == 880.0
    ensures WholeOctaveHz(NoteToFreq("A", 3)) == 220.0
  {
    assert NoteToFreq("A", 5).semitones / 12 == 1;
    assert NoteToFreq("A", 3).semitones / 12 == -1;
  }

  /** Each octave up doubles the frequency of A. */
  lemma AOctaveDoubles(octave: int)
    ensures WholeOctaveHz(NoteToFreq("A", octave + 1)) == 2.0 * WholeOctaveHz(NoteToFreq("A", octave))
  {
    assert NoteToFreq("A", octave + 1).semitones / 12 == octave - 3;
    assert NoteToFreq("A", octave).semitones / 12 == octave - 4;
  }

  // ----- one token of setMelody2 -----

  /** One entry of the two lists: a frequency and how long it lasts, in seconds. */
  datatype Entry = Entry(freq: Freq, time: real)

  /** How long a note of `len` beats lasts when a beat lasts `dt` seconds. */
  function Duration(len: real, dt: real): real
  {
    len * dt
  }

  /** The note length: the digit before last over the last digit. */
  function NoteLength(item: string): (r: Result<real, PyError>)
    ensures r.Ok? ==> r.value >= 0.0
  {
    var num := FloatAt(item, |item| - 2);
    if num.Err? then Err(num.error)
    else
      var den := FloatAt(item, |item| - 1);
      if den.Err? then Err(den.error)
      else if den.value == 0.0 then Err(ZeroDivisionError)
      else Ok(num.value / den.value)
  }

  /**
   * One token of setMelody2, evaluated in source order: `p...` is a rest of
   * the length its last two digits give; anything else is a note whose name
   * is all but the last three characters, whose octave is the third digit
   * from the end plus the shift, and whose length is the last two digits.
   * `dt` is the length of a beat, 60/bpm.
   */
  function ParseToken(item: string, dt: real, shift: int): (r: Result<Entry, PyError>)
  {
    if |item| == 0 then Err(IndexError)
    else if item[0] == 'p' then
      var len := NoteLength(item);
      if len.Err? then Err(len.error) else Ok(Entry(Silence, Duration(len.value, dt)))
    else
      var note := PyPrefix(item, |item| - 3);
      var octave := IntAt(item, |item| - 3);
      if octave.Err? then Err(octave.error)
      else
        var f := NoteToFreq(note, octave.value + shift);
        var len := NoteLength(item);
        if len.Err? then Err(len.error) else Ok(Entry(f, Duration(len.value, dt)))
  }

  /**
   * What any token gives: one shorter than two characters raises; a token
   * that parses is silence exactly when it starts with 'p', and lasts a
   * non-negative time when a beat does.
   */
  lemma ParseTokenShape(item: string, dt: real, shift: int)
    ensures var r := ParseToken(item, dt, shift);
            && (|item| < 2 ==> r == Err(IndexError) || r == Err(ValueError))
            && (r.Ok? ==> (r.value.freq == Silence <==> item[0] == 'p'))
            && (r.Ok? && dt >= 0.0 ==> r.value.time >= 0.0)
  {
  }

  /** "A414": A in octave 4, a quarter of a beat long. */
  lemma NoteTokenExample(dt: real)
    ensures ParseToken("A414", dt, 0) == Ok(Entry(Pitch(0), Duration(0.25, dt)))
    ensures ParseToken("Bb424", dt, 1) == Ok(Entry(Pitch(13), Duration(0.5, dt)))
  {
    assert PyPrefix("A414", 1) == "A";
    assert IntAt("A414", 1) == Ok(4) by { assert "A414"[1] == '4'; }
    assert NoteLength("A414") == Ok(0.25) by {
      assert FloatAt("A414", 2) == Ok(1.0) by { assert "A414"[2] == '1'; }
      assert FloatAt("A414", 3) == Ok(4.0) by { assert "A414"[3] == '4'; }
    }
    assert PyPrefix("Bb424", 2) == "Bb";
    assert IntAt("Bb424", 2) == Ok(4) by { assert "Bb424"[2] == '4'; }
    assert NoteLength("Bb424") == Ok(0.5) by {
      assert FloatAt("Bb424", 3) == Ok(2.0) by { assert "Bb424"[3] == '2'; }
      assert FloatAt("Bb424", 4) == Ok(4.0) by { assert "Bb424"[4] == '4'; }
    }
  }

  /** Rest tokens: silent for num / den beats, the last two digits of the token. */
  lemma {:induction false} RestToken(item: string, dt: real, shift: int, num: int, den: int)
    requires |item| >= 3 && item[0] == 'p'
    requires DigitValue(item[|item| - 2]) == Some(num) && DigitValue(item[|item| - 1]) == Some(den) && den != 0
    ensures ParseToken(item, dt, shift) == Ok(Entry(Silence, Duration(num as real / den as real, dt)))
  {
    assert FloatAt(item, |item| - 2) == Ok(num as real) by { assert PyAt(item, |item| - 2) == Some(item[|item| - 2]); }
    assert FloatAt(item, |item| - 1) == Ok(den as real) by { assert PyAt(item, |item| - 1) == Some(item[|item| - 1]); }
    assert NoteLength(item) == Ok(num as real / den as real);
  }

  /**
   * A note token: the name before the last three characters, the octave
   * digit plus the shift, and num / den beats from the last two digits.
   */
  lemma {:induction false} NoteToken(item: string, dt: real, shift: int, octave: int, num: int, den: int)
    requires |item| >= 3 && item[0] != 'p'
    requires DigitValue(item[|item| - 3]) == Some(octave)
    requires DigitValue(item[|item| - 2]) == Some(num) && DigitValue(item[|item| - 1]) == Some(den) && den != 0
    ensures ParseToken(item, dt, shift)
            == Ok(Entry(NoteToFreq(item[..|item| - 3], octave + shift), Duration(num as real / den as real, dt)))
  {
    assert PyPrefix(item, |item| - 3) == item[..|item| - 3];
    assert IntAt(item, |item| - 3) == Ok(octave);
    assert FloatAt(item, |item| - 2) == Ok(num as real) by { assert PyAt(item, |item| - 2) == Some(item[|item| - 2]); }
    assert FloatAt(item, |item| - 1) == Ok(den as real) by { assert PyAt(item, |item| - 1) == Some(item[|item| - 1]); }
    assert NoteLength(item) == Ok(num as real / den as real);
  }

  /** The ways a token fails: empty, too short, a non-digit where a digit belongs, or a zero denominator. */
  lemma {:induction false} BadTokens(dt: real)
    ensures ParseToken("", dt, 0) == Err(IndexError)
    ensures ParseToken("A", dt, 0) == Err(IndexError)
    ensures ParseToken("p", dt, 0) == Err(ValueError)
    ensures ParseToken("A4x4", dt, 0) == Err(ValueError)
    ensures ParseToken("A410", dt, 0) == Err(ZeroDivisionError)
  {
  }

  // ----- setMelody2 -----

  /** The two parallel lists and the exception, if any, that ended the loop. */
  datatype Lists = Lists(fList: seq<Freq>, tList: seq<real>, error: Option<PyError>)

  /**
   * The loop of setMelody2 over the first |tokens| tokens: each token that
   * parses appends its entry, then the pause (silence, gap); the first token
   * that raises ends it, keeping what was appended before.
   */
  function Parse(tokens: seq<string>, gap: real, dt: real, shift: int): Lists
    decreases |tokens|
  {
    if tokens == [] then Lists([], [], None)
    else
      var prev := Parse(tokens[..|tokens| - 1], gap, dt, shift);
      if prev.error.Some? then prev
      else
        match ParseToken(tokens[|tokens| - 1], dt, shift)
        case Err(e) => Lists(prev.fList, prev.tList, Some(e))
        case Ok(entry) =>
          Lists(prev.fList + [entry.freq, Silence], prev.tList + [entry.time, gap], None)
  }

  /**
   * What the loop leaves behind: two entries for each token before the
   * first that raises, the token's own entry at the even index and the
   * pause (silence, gap) at the odd one; the error, if any, is the one the
   * next token raises.
   */
  lemma {:induction false} ParseShape(tokens: seq<string>, gap: real, dt: real, shift: int)
    ensures var r := Parse(tokens, gap, dt, shift);
            && |r.fList| == |r.tList| && |r.fList| % 2 == 0 && |r.fList| <= 2 * |tokens|
            && (forall k :: 0 <= k < |r.fList| / 2 ==>
                  && ParseToken(tokens[k], dt, shift) == Ok(Entry(r.fList[2 * k], r.tList[2 * k]))
                  && r.fList[2 * k + 1] == Silence && r.tList[2 * k + 1] == gap)
            && (r.error.None? ==> |r.fList| == 2 * |tokens|)
            && (r.error.Some? ==> |r.fList| < 2 * |tokens|
                                  && ParseToken(tokens[|r.fList| / 2], dt, shift) == Err(r.error.value))
    decreases |tokens|
  {
    if tokens != [] {
      var init := tokens[..|tokens| - 1];
      ParseShape(init, gap, dt, shift);
      var prev := Parse(init, gap, dt, shift);
      assert forall k :: 0 <= k < |init| ==> init[k] == tokens[k];
      if prev.error.None? && ParseToken(tokens[|tokens| - 1], dt, shift).Ok? {
        PairsExtend(tokens, prev, ParseToken(tokens[|tokens| - 1], dt, shift).value, gap, dt, shift);
      }
    }
  }

  /** Appending the entry of the last token and a pause keeps every pair in place. */
  lemma PairsExtend(tokens: seq<string>, prev: Lists, e: Entry, gap: real, dt: real, shift: int)
    requires tokens != [] && ParseToken(tokens[|tokens| - 1], dt, shift) == Ok(e)
    requires |prev.fList| == |prev.tList| == 2 * (|tokens| - 1)
    requires forall k :: 0 <= k < |tokens| - 1 ==>
               && ParseToken(tokens[k], dt, shift) == Ok(Entry(prev.fList[2 * k], prev.tList[2 * k]))
               && prev.fList[2 * k + 1] == Silence && prev.tList[2 * k + 1] == gap
    ensures var fs, ts := prev.fList + [e.freq, Silence], prev.tList + [e.time, gap];
            forall k :: 0 <= k < |tokens| ==>
              && ParseToken(tokens[k], dt, shift) == Ok(Entry(fs[2 * k], ts[2 * k]))
              && fs[2 * k + 1] == Silence && ts[2 * k + 1] == gap
  {
    var fs, ts := prev.fList + [e.freq, Silence], prev.tList + [e.time, gap];
    forall k | 0 <= k < |tokens|
      ensures ParseToken(tokens[k], dt, shift) == Ok(Entry(fs[2 * k], ts[2 * k]))
      ensures fs[2 * k + 1] == Silence && ts[2 * k + 1] == gap
    {
      if k < |tokens| - 1 {
        assert fs[2 * k] == prev.fList[2 * k] && ts[2 * k] == prev.tList[2 * k];
        assert fs[2 * k + 1] == prev.fList[2 * k + 1] && ts[2 * k + 1] == prev.tList[2 * k + 1];
      } else {
        assert fs[2 * k] == e.freq && ts[2 * k] == e.time;
      }
    }
  }

  /** The first token that raises ends the loop: later tokens change nothing. */
  lemma {:induction false} ParseStops(tokens: seq<string>, gap: real, dt: real, shift: int, j: int)
    requires 0 <= j <= |tokens|
    requires Parse(tokens[..j], gap, dt, shift).error.Some?
    ensures Parse(tokens, gap, dt, shift) == Parse(tokens[..j], gap, dt, shift)
    decreases |tokens|
  {
    if |tokens| > j {
      var init := tokens[..|tokens| - 1];
      assert init[..j] == tokens[..j];
      ParseStops(init, gap, dt, shift, j);
      ParseAfterError(tokens, gap, dt, shift);
    } else {
      assert tokens[..j] == tokens;
    }
  }

  /** One step of the loop after a raise changes nothing. */
  lemma ParseAfterError(tokens: seq<string>, gap: real, dt: real, shift: int)
    requires tokens != [] && Parse(tokens[..|tokens| - 1], gap, dt, shift).error.Some?
    ensures Parse(tokens, gap, dt, shift) == Parse(tokens[..|tokens| - 1], gap, dt, shift)
  {
  }

  /**
   * setMelody2: both lists are emptied, then `60.0/bpm` raises for bpm 0;
   * otherwise the tokens of the space-split string are parsed in order.
   */
  function SetMelody2(notes: string, gap: real, bpm: real, shift: int): (r: Lists)
    ensures bpm == 0.0 ==> r == Lists([], [], Some(ZeroDivisionError))
  {
    if bpm == 0.0 then Lists([], [], Some(ZeroDivisionError))
    else Parse(Split(notes, ' '), gap, 60.0 / bpm, shift)
  }

  /**
   * The list shape of a melody that parses: two entries per token, the
   * token's own entry at the even index and the pause (silence, gap) at the
   * odd one; and a melody parses exactly when every token does.
   */
  lemma MelodyShape(notes: string, gap: real, bpm: real, shift: int)
    requires bpm != 0.0
    ensures var tokens := Split(notes, ' ');
            var r := SetMelody2(notes, gap, bpm, shift);
            && (r.error.None? <==> forall k :: 0 <= k < |tokens| ==> ParseToken(tokens[k], 60.0 / bpm, shift).Ok?)
            && (r.error.None? ==>
                  && |r.fList| == |r.tList| == 2 * |tokens|
                  && forall k :: 0 <= k < |tokens| ==>
                       && ParseToken(tokens[k], 60.0 / bpm, shift) == Ok(Entry(r.fList[2 * k], r.tList[2 * k]))
                       && r.fList[2 * k + 1] == Silence && r.tList[2 * k + 1] == gap)
  {
    var tokens := Split(notes, ' ');
    ParseShape(tokens, gap, 60.0 / bpm, shift);
    var r := Parse(tokens, gap, 60.0 / bpm, shift);
    assert r == SetMelody2(notes, gap, bpm, shift);
    if r.error.Some? {
      var j := |r.fList| / 2;
      assert ParseToken(tokens[j], 60.0 / bpm, shift).Err?;
    }
  }

  // ----- what the buzzer emits -----

  /**
   * One observable action of the buzzer: a tone of a frequency at a duty
   * cycle for a time (the passive buzzer's PWM, set back to duty 0 after),
   * the active buzzer's pin held high for a time, or a silent wait.
   */
  datatype Event = Tone(freq: Freq, duty: int, time: real) | Beep(time: real) | Wait(time: real)

  /** playSound on a passive (type 0) or active buzzer. */
  function Sound(buzzerType: int, duty: int, f: Freq, t: real): (e: Event)
    ensures buzzerType == 0 <==> e.Tone?
    ensures e.time == t
  {
    if buzzerType == 0 then Tone(f, duty, t) else Beep(t)
  }

  /** What playing entry (f, t) emits: a sound if f is non-zero, else a wait of t. */
  function PlayEntry(buzzerType: int, duty: int, f: Freq, t: real): (e: Event)
    ensures e.time == t
    ensures !f.Audible() <==> e.Wait?
  {
    if f.Audible() then Sound(buzzerType, duty, f, t) else Wait(t)
  }

  /** The events of playMelody and whether it completed: it raises IndexError at the first index past the end of tList. */
  datatype Played = Played(events: seq<Event>, ok: bool)

  function PlayTrace(fs: seq<Freq>, ts: seq<real>, buzzerType: int, duty: int): (p: Played)
    ensures |p.events| <= |fs|
    ensures p.ok ==> |p.events| == |fs|
    decreases |fs|
  {
    if fs == [] then Played([], true)
    else
      var prev := PlayTrace(fs[..|fs| - 1], ts, buzzerType, duty);
      var i := |fs| - 1;
      if !prev.ok then prev
      else if i >= |ts| then Played(prev.events, false)
      else Played(prev.events + [PlayEntry(buzzerType, duty, fs[i], ts[i])], true)
  }

  /**
   * playMelody visits the entries in index order and emits one event per
   * entry; it completes exactly when tList is at least as long as fList,
   * and otherwise stops after the entries tList covers.
   */
  lemma {:induction false} PlayTraceInOrder(fs: seq<Freq>, ts: seq<real>, buzzerType: int, duty: int)
    ensures var p := PlayTrace(fs, ts, buzzerType, duty);
            && (p.ok <==> |fs| <= |ts|)
            && |p.events| == (if |fs| <= |ts| then |fs| else |ts|)
            && forall i :: 0 <= i < |p.events| ==> p.events[i] == PlayEntry(buzzerType, duty, fs[i], ts[i])
    decreases |fs|
  {
    if fs != [] {
      PlayTraceInOrder(fs[..|fs| - 1], ts, buzzerType, duty);
    }
  }

  /**
   * Once tList runs out, playMelody stops: the first index past its end
   * raises, and the events are those of the entries before it.
   */
  lemma {:induction false} PlayTraceStops(fs: seq<Freq>, ts: seq<real>, buzzerType: int, duty: int, i: int)
    requires |ts| <= i < |fs| && PlayTrace(fs[..i], ts, buzzerType, duty).ok
    ensures PlayTrace(fs, ts, buzzerType, duty) == Played(PlayTrace(fs[..i], ts, buzzerType, duty).events, false)
    decreases |fs|
  {
    var init := fs[..|fs| - 1];
    assert init[..i] == fs[..i];
    if |fs| - 1 > i {
      PlayTraceStops(init, ts, buzzerType, duty, i);
    } else {
      assert init == fs[..i];
    }
  }

  /** The i-th frequency of a sweep, i * df. */
  function SweepFreq(i: int, df: real): Freq
  {
    Hz(i as real * df)
  }

  /** The tones of sweep(df, dt, startN, N): frequency i * df for each i from startN up to N - 1. */
  function SweepTrace(df: real, dt: real, startN: int, n: int, buzzerType: int, duty: int): (es: seq<Event>)
    ensures |es| == (if n <= startN then 0 else n - startN)
    ensures forall k :: 0 <= k < |es| ==> es[k].time == dt
    decreases n - startN
  {
    if n <= startN then []
    else SweepTrace(df, dt, startN, n - 1, buzzerType, duty) + [Sound(buzzerType, duty, SweepFreq(n - 1, df), dt)]
  }

  /** The sweep emits N - startN sounds (none if N <= startN), the k-th at (startN + k) * df, each lasting dt. */
  lemma {:induction false} SweepInOrder(df: real, dt: real, startN: int, n: int, buzzerType: int, duty: int)
    ensures var es := SweepTrace(df, dt, startN, n, buzzerType, duty);
            && |es| == (if n <= startN then 0 else n - startN)
            && forall k :: 0 <= k < |es| ==> es[k] == Sound(buzzerType, duty, SweepFreq(startN + k, df), dt)
    decreases n - startN
  {
    if n > startN {
      SweepInOrder(df, dt, startN, n - 1, buzzerType, duty);
      var prev := SweepTrace(df, dt, startN, n - 1, buzzerType, duty);
      var es := SweepTrace(df, dt, startN, n, buzzerType, duty);
      assert es == prev + [Sound(buzzerType, duty, SweepFreq(n - 1, df), dt)];
      forall k | 0 <= k < |es|
        ensures es[k] == Sound(buzzerType, duty, SweepFreq(startN + k, df), dt)
      {
        if k < |prev| {
          assert es[k] == prev[k];
        } else {
          assert startN + k == n - 1;
        }
      }
    }
  }

  /** With a positive step the passive sweep's tones rise strictly. */
  lemma SweepRises(df: real, dt: real, startN: int, n: int, duty: int)
    requires df > 0.0
    ensures var es := SweepTrace(df, dt, startN, n, 0, duty);
            forall j, k :: 0 <= j < k < |es| ==>
              es[j].Tone? && es[j].freq.Hz? && es[k].Tone? && es[k].freq.Hz? && es[j].freq.hz < es[k].freq.hz
  {
    SweepInOrder(df, dt, startN, n, 0, duty);
    var es := SweepTrace(df, dt, startN, n, 0, duty);
    forall j, k | 0 <= j < k < |es|
      ensures es[j].Tone? && es[j].freq.Hz? && es[k].Tone? && es[k].freq.Hz? && es[j].freq.hz < es[k].freq.hz
    {
      assert (startN + j) as real * df < (startN + k) as real * df;
    }
  }
}
