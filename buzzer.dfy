/**
 * The approach buzzer: a passive buzzer driven by PWM, which can play
 * tones, melodies and frequency sweeps, or an active buzzer, which can only
 * be switched on for a time. What the buzzer does is recorded as a sequence
 * of events; the melody is held in two parallel lists of frequencies and
 * durations.
 */
module Buzzer {
  import opened Wrappers
  import opened Melody

  /**
   * The four built-in melodies, written as their notes joined by single
   * spaces ("A414 A414 B424" and so on).
   */
  const Melody1: string := Join(StandardTokens(1), ' ')
  const Melody2: string := Join(StandardTokens(2), ' ')
  const Melody3: string := Join(StandardTokens(3), ' ')
  const Melody4: string := Join(StandardTokens(4), ' ')
  const StandardGap: real := 0.05

  class ApproachBuzzer {
    var pin: int
    /** 0 for the passive (PWM) buzzer, 1 for the active one. */
    var buzzerType: int
    /** PWM base frequency and duty cycle of the passive buzzer. */
    var freq: int
    var dc: int
    var fList: seq<Freq>
    var tList: seq<real>
    /** Everything the buzzer has sounded or waited, oldest first. */
    var emitted: seq<Event>

    constructor(pin: int, buzzer: string)
      ensures this.pin == pin
      ensures buzzerType == (if buzzer == "passive" then 0 else 1)
      ensures buzzer == "passive" ==> freq == 100 && dc == 50
      ensures fList == [] && tList == [] && emitted == []
    {
      this.pin := pin;
      if buzzer == "passive" {
        buzzerType := 0;
        freq := 100;
        dc := 50;
      } else {
        buzzerType := 1;
      }
      fList := [];
      tList := [];
      emitted := [];
    }

    /** A tone of frequency f for `time` seconds, or the active buzzer's pin high for that long. */
    method PlaySound(f: Freq, time: real)
      modifies this`emitted
      ensures emitted == old(emitted) + [Sound(buzzerType, dc, f, time)]
    {
      if buzzerType == 0 {
        emitted := emitted + [Tone(f, dc, time)];
      } else {
        emitted := emitted + [Beep(time)];
      }
    }

    method SetMelody(freqs: seq<Freq>, times: seq<real>)
      modifies this`fList, this`tList
      ensures fList == freqs && tList == times
    {
      fList := freqs;
      tList := times;
    }

    /**
     * Fills the lists from a note string; an error is the exception the
     * source raises, with the lists as far as they were filled.
     */
    method SetMelody2(notes: string, gap: real, bpm: real, octaveShift: int) returns (error: Option<PyError>)
      modifies this`fList, this`tList
      ensures Lists(fList, tList, error) == Melody.SetMelody2(notes, gap, bpm, octaveShift)
    {
      fList := [];
      tList := [];
      if bpm == 0.0 {
        return Some(ZeroDivisionError);
      }
      var dt := 60.0 / bpm;
      var sepNotes := Split(notes, ' ');
      var i := 0;
      while i < |sepNotes|
        invariant 0 <= i <= |sepNotes|
        invariant Parse(sepNotes[..i], gap, dt, octaveShift) == Lists(fList, tList, None)
      {
        var item := sepNotes[i];
        assert sepNotes[..i + 1][..i] == sepNotes[..i];
        var entry := ParseToken(item, dt, octaveShift);
        if entry.Err? {
          ParseStops(sepNotes, gap, dt, octaveShift, i + 1);
          return Some(entry.error);
        }
        var f, time := entry.value.freq, entry.value.time;
        fList := fList + [f];
        tList := tList + [time];
        fList := fList + [Silence];
        tList := tList + [gap];
        i := i + 1;
      }
      assert sepNotes[..i] == sepNotes;
      return None;
    }

    /** Plays the lists in order; false is the IndexError of a tList shorter than fList. */
    method PlayMelody() returns (ok: bool)
      modifies this`emitted
      ensures var p := PlayTrace(fList, tList, buzzerType, dc);
              emitted == old(emitted) + p.events && ok == p.ok
    {
      var i := 0;
      while i < |fList|
        invariant 0 <= i <= |fList|
        invariant PlayTrace(fList[..i], tList, buzzerType, dc).ok
        invariant emitted == old(emitted) + PlayTrace(fList[..i], tList, buzzerType, dc).events
      {
        assert fList[..i + 1][..i] == fList[..i];
        if i >= |tList| {
          PlayTraceStops(fList, tList, buzzerType, dc, i);
          return false;
        }
        if fList[i].Audible() {
          PlaySound(fList[i], tList[i]);
        } else {
          emitted := emitted + [Wait(tList[i])];
        }
        i := i + 1;
      }
      assert fList[..i] == fList;
      return true;
    }

    /**
     * A built-in melody on the passive buzzer (numbers other than 1 to 4
     * play whatever the lists hold), or two seconds of the active buzzer.
     */
    method PlayStandardSound(nr: int) returns (ok: bool)
      modifies this`fList, this`tList, this`emitted
      ensures buzzerType == 0 && 1 <= nr <= 4 ==>
                var l := Melody.SetMelody2(StandardNotes(nr), StandardGap, StandardBpm(nr), 0);
                fList == l.fList && tList == l.tList && ok
      ensures buzzerType == 0 && !(1 <= nr <= 4) ==> fList == old(fList) && tList == old(tList)
      ensures buzzerType == 0 ==>
                var p := PlayTrace(fList, tList, buzzerType, dc);
                emitted == old(emitted) + p.events && ok == p.ok
      ensures buzzerType != 0 ==>
                fList == old(fList) && tList == old(tList) && ok
                && emitted == old(emitted) + [Beep(2.0)]
    {
      if buzzerType == 0 {
        var error: Option<PyError>;
        if nr == 1 {
          error := SetMelody2(Melody1, StandardGap, 120.0, 0);
        }
        if nr == 2 {
          error := SetMelody2(Melody2, StandardGap, 180.0, 0);
        }
        if nr == 3 {
          error := SetMelody2(Melody3, StandardGap, 120.0, 0);
        }
        if nr == 4 {
          error := SetMelody2(Melody4, StandardGap, 120.0, 0);
        }
        ok := PlayMelody();
        if 1 <= nr <= 4 {
          StandardMelodiesParse(nr);
          PlayTraceInOrder(fList, tList, buzzerType, dc);
        }
      } else {
        PlaySound(Silence, 2.0);
        ok := true;
      }
    }

    /** Sounds i * df for dt seconds, for each i from startN up to n - 1. */
    method Sweep(df: real, dt: real, startN: int, n: int)
      modifies this`emitted
      ensures emitted == old(emitted) + SweepTrace(df, dt, startN, n, buzzerType, dc)
    {
      var i := startN;
      while i < n
        invariant startN <= i && (i <= n || i == startN)
        invariant emitted == old(emitted) + SweepTrace(df, dt, startN, i, buzzerType, dc)
        decreases n - i
      {
        var f := SweepFreq(i, df);
        PlaySound(f, dt);
        i := i + 1;
      }
    }
  }

  /** The melody string playStandardSound uses for each number. */
  function StandardNotes(nr: int): string
  {
    if nr == 1 then Melody1 else if nr == 2 then Melody2 else if nr == 3 then Melody3 else Melody4
  }

  function StandardBpm(nr: int): real
  {
    if nr == 2 then 180.0 else 120.0
  }

  /** The tokens each built-in melody splits into. */
  function StandardTokens(nr: int): seq<string>
  {
    if nr == 1 then ["A414", "A414", "B424"]
    else if nr == 2 then ["D514", "D514", "D514", "D534", "Bb424", "C524", "D524", "C514", "D524"]
    else if nr == 3 then ["A424"]
    else ["G414", "G414", "G414", "Eb434"]
  }

  /** A note token: a name, an octave digit and a length of two digits whose last is not zero. */
  predicate WellFormedNote(item: string)
  {
    |item| >= 3 && item[0] != 'p'
    && '0' <= item[|item| - 3] <= '9' && '0' <= item[|item| - 2] <= '9' && '1' <= item[|item| - 1] <= '9'
  }

  /** A well-formed note token never raises. */
  lemma WellFormedNoteParses(item: string, dt: real)
    requires WellFormedNote(item)
    ensures ParseToken(item, dt, 0).Ok?
  {
    NoteToken(item, dt, 0, DigitValue(item[|item| - 3]).value,
              DigitValue(item[|item| - 2]).value, DigitValue(item[|item| - 1]).value);
  }

  lemma StandardTokensWellFormed(nr: int)
    requires 1 <= nr <= 4
    ensures forall k :: 0 <= k < |StandardTokens(nr)| ==> WellFormedNote(StandardTokens(nr)[k])
  {
  }

  lemma {:induction false} SplitStandard(nr: int)
    requires 1 <= nr <= 4
    ensures Split(StandardNotes(nr), ' ') == StandardTokens(nr)
  {
    var ts := StandardTokens(nr);
    assert forall i :: 0 <= i < |ts| ==> ' ' !in ts[i];
    SplitOfJoin(ts, ' ');
  }

  /** The four built-in melodies parse without raising, each into two entries per note. */
  lemma {:induction false} StandardMelodiesParse(nr: int)
    requires 1 <= nr <= 4
    ensures var l := Melody.SetMelody2(StandardNotes(nr), StandardGap, StandardBpm(nr), 0);
            && l.error.None?
            && |l.fList| == |l.tList| == 2 * |StandardTokens(nr)|
  {
    var ts := StandardTokens(nr);
    var dt := 60.0 / StandardBpm(nr);
    SplitStandard(nr);
    StandardTokensWellFormed(nr);
    forall k | 0 <= k < |ts|
      ensures ParseToken(ts[k], dt, 0).Ok?
    {
      WellFormedNoteParses(ts[k], dt);
    }
    MelodyShape(StandardNotes(nr), StandardGap, StandardBpm(nr), 0);
  }

  /** Melody 3 is A4 for two quarters of a beat at 120 beats per minute, then the 0.05 s pause. */
  lemma {:induction false} StandardMelodyThree()
    ensures var l := Melody.SetMelody2(Melody3, StandardGap, 120.0, 0);
            l == Lists([Pitch(0), Silence], [Duration(0.5, 0.5), StandardGap], None)
  {
    SplitStandard(3);
    var ts := StandardTokens(3);
    assert ts[..0] == [] && ts[..1] == ts;
    NoteToken("A424", 0.5, 0, 4, 2, 4);
    assert "A424"[..1] == "A";
    assert 2.0 / 4.0 == 0.5;
  }
}
