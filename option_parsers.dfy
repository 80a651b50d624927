/**
 * The two hand-written recognisers for the `-c` (interface clock) and `-z`
 * (CPU clock) option values of src/cannelloni.c.  Each moves a cursor over a
 * NUL-terminated string, updates the flags it recognises as it goes, and
 * answers 0 when the cursor ends on the terminator and 1 otherwise.
 */
module OptionParsers {
  import opened Fx2Registers

  /** The flags `-c` can change, as held by `main` before and after the call. */
  datatype IfClock = IfClock(useIFCLK: bool, use48MhzInternalCLK: bool, redirectToCLKOUT: bool, invertIFCLK: bool)

  /** The flags `-z` can change.  `cpuMHz` is one of MHZ12 = 0, MHZ24 = 1, MHZ48 = 2 when set by the parser. */
  datatype CpuClock = CpuClock(cpuMHz: int, enableCLKOUTDriver: bool, invertCLKOUT: bool)

  /** The character under the cursor of a C string: past the last character sits the terminating NUL. */
  function At(value: string, pos: nat): char
  {
    if pos < |value| then value[pos] else '\0'
  }

  predicate StartsWith(value: string, prefix: string)
  {
    prefix <= value
  }

  /** The optional last part of either value: `i`, which inverts a clock. */
  const Inverts: set<string> := {"", "i"}

  /** What may precede the optional `i` of a `-c` value: `x`, `30`, `30o`, `48`, `48o`, or nothing. */
  const IfClockHeads: set<string> := {"", "x", "30", "30o", "48", "48o"}

  /** Every value `-c` accepts: `[x|30[o]|48[o]][i]`. */
  const IfClockWords: set<string> := set h, t | h in IfClockHeads && t in Inverts :: h + t

  /** `head` is the longest of `heads` that `value` begins with. */
  predicate LongestHead(value: string, head: string, heads: set<string>)
  {
    head in heads && head <= value &&
    forall h :: h in heads && h <= value ==> |h| <= |head|
  }

  /**
   * Two heads of one value: the shorter one is a prefix of the longer, so the
   * character after the shorter one is a character of the longer one.
   */
  lemma ShorterHead(value: string, head: string, h: string, heads: set<string>)
    requires LongestHead(value, head, heads)
    requires h in heads && h <= value && h != head
    ensures |h| < |head| && value[|h|] in head
  {
    assert value[|h|] == head[|h|];
  }

  /**
   * When no character that can follow a head occurs inside any head, a value
   * splits into a head and a tail in one way only: its longest head, then the rest.
   */
  lemma {:induction false} SplitAtLongestHead(value: string, head: string, heads: set<string>, tails: set<string>)
    requires LongestHead(value, head, heads)
    requires forall h, t :: h in heads && t in tails && t != "" ==> t[0] !in h
    ensures value in (set h, t | h in heads && t in tails :: h + t) <==> value[|head|..] in tails
  {
    if value in (set h, t | h in heads && t in tails :: h + t) {
      var h, t :| h in heads && t in tails && value == h + t;
      assert h <= value;
      if h != head {
        ShorterHead(value, head, h, heads);
      }
      assert value[|head|..] == t;
    }
    if value[|head|..] in tails {
      assert value == head + value[|head|..];
    }
  }

  /** Whether some head is followed by `c` is decided by the longest head alone, when no head contains `c`. */
  lemma {:induction false} FollowsLongestHead(value: string, head: string, heads: set<string>, c: char)
    requires LongestHead(value, head, heads)
    requires forall h :: h in heads ==> c !in h
    ensures (exists h :: h in heads && h + [c] <= value) <==> head + [c] <= value
  {
    if h :| h in heads && h + [c] <= value {
      assert h <= value;
      if h != head {
        ShorterHead(value, head, h, heads);
      }
    }
  }

  /** The cursor reads an `i` exactly when the value goes on with one. */
  lemma IAt(value: string, pos: nat)
    requires pos <= |value|
    ensures value[..pos] + "i" <= value <==> At(value, pos) == 'i'
  {
    if value[..pos] + "i" <= value {
      assert value[pos] == (value[..pos] + "i")[pos];
    }
    if At(value, pos) == 'i' {
      assert value[..pos] + "i" == value[..pos + 1];
    }
  }

  /** The cursor at the end of a head: the tail is `""` or `"i"` exactly when the C string ends there or after an `i`. */
  lemma TailAt(value: string, pos: nat)
    requires pos <= |value| && '\0' !in value
    ensures value[pos..] == "" <==> At(value, pos) == '\0'
    ensures value[..pos] + "i" <= value <==> At(value, pos) == 'i'
    ensures value[pos..] == "i" <==> At(value, pos) == 'i' && At(value, pos + 1) == '\0'
  {
    if pos < |value| {
      assert value[pos] in value;
      assert value[pos..][0] == value[pos];
      if value[..pos] + "i" <= value {
        assert value[pos] == (value[..pos] + "i")[pos];
      }
      if At(value, pos) == 'i' {
        assert value[..pos] + "i" == value[..pos + 1];
      }
      if pos + 1 < |value| {
        assert value[pos + 1] in value;
      }
    }
  }

  lemma IfClockTails()
    ensures forall h, t :: h in IfClockHeads && t in Inverts && t != "" ==> t[0] !in h
    ensures forall h :: h in IfClockHeads ==> 'i' !in h
  {
  }

  lemma LongestIfClockHeadNone(value: string)
    requires At(value, 0) != 'x'
    requires !(At(value, 0) == '3' && At(value, 1) == '0')
    requires !(At(value, 0) == '4' && At(value, 1) == '8')
    ensures LongestHead(value, "", IfClockHeads)
  {
  }

  lemma LongestIfClockHeadX(value: string)
    requires At(value, 0) == 'x'
    ensures LongestHead(value, "x", IfClockHeads)
  {
  }

  /** The longest head after a clock speed `d0 d1` (`30` or `48`), with or without `o`. */
  lemma LongestIfClockHeadSpeed(value: string, d0: char, d1: char)
    requires (d0 == '3' && d1 == '0') || (d0 == '4' && d1 == '8')
    requires At(value, 0) == d0 && At(value, 1) == d1
    ensures At(value, 2) == 'o' ==> LongestHead(value, [d0, d1, 'o'], IfClockHeads)
    ensures At(value, 2) != 'o' ==> LongestHead(value, [d0, d1], IfClockHeads)
  {
  }

  /**
   * What `-c` accepts and sets, read off the longest head of the value and
   * the characters after it.
   */
  lemma IfClockByHead(value: string, head: string)
    requires LongestHead(value, head, IfClockHeads)
    requires '\0' !in value
    ensures value in IfClockWords <==>
      At(value, |head|) == '\0' || (At(value, |head|) == 'i' && At(value, |head| + 1) == '\0')
    ensures (exists h :: h in IfClockHeads && h + "i" <= value) <==> At(value, |head|) == 'i'
  {
    IfClockTails();
    SplitAtLongestHead(value, head, IfClockHeads, Inverts);
    FollowsLongestHead(value, head, IfClockHeads, 'i');
    assert head == value[..|head|];
    TailAt(value, |head|);
  }

  /** The prefixes that decide `-c`'s clock flags, read off the longest head. */
  lemma IfClockHeadPrefixes(value: string, head: string)
    requires LongestHead(value, head, IfClockHeads)
    ensures StartsWith(value, "x") <==> head == "x"
    ensures StartsWith(value, "30") <==> head == "30" || head == "30o"
    ensures StartsWith(value, "48") <==> head == "48" || head == "48o"
    ensures StartsWith(value, "30o") <==> head == "30o"
    ensures StartsWith(value, "48o") <==> head == "48o"
  {
    assert "x" in IfClockHeads && "30" in IfClockHeads && "48" in IfClockHeads;
    assert "30o" in IfClockHeads && "48o" in IfClockHeads;
    if |head| > 0 {
      assert value[0] == head[0];
    }
    if |head| > 1 {
      assert value[1] == head[1];
    }
    if |head| > 2 {
      assert value[2] == head[2];
    }
  }

  /**
   * The head `parseOptionC` steps over is the longest head the value begins
   * with, and so decides the clock flags, the inversion and acceptance.
   */
  lemma IfClockStage(value: string, head: string)
    requires '\0' !in value
    requires
      || (head == "x" && At(value, 0) == 'x')
      || (head == "30" && At(value, 0) == '3' && At(value, 1) == '0' && At(value, 2) != 'o')
      || (head == "30o" && At(value, 0) == '3' && At(value, 1) == '0' && At(value, 2) == 'o')
      || (head == "48" && At(value, 0) == '4' && At(value, 1) == '8' && At(value, 2) != 'o')
      || (head == "48o" && At(value, 0) == '4' && At(value, 1) == '8' && At(value, 2) == 'o')
      || (head == "" && At(value, 0) != 'x' && !(At(value, 0) == '3' && At(value, 1) == '0')
          && !(At(value, 0) == '4' && At(value, 1) == '8'))
    ensures value in IfClockWords <==>
      At(value, |head|) == '\0' || (At(value, |head|) == 'i' && At(value, |head| + 1) == '\0')
    ensures (exists h :: h in IfClockHeads && h + "i" <= value) <==> At(value, |head|) == 'i'
    ensures StartsWith(value, "x") <==> head == "x"
    ensures StartsWith(value, "30") <==> head == "30" || head == "30o"
    ensures StartsWith(value, "48") <==> head == "48" || head == "48o"
    ensures StartsWith(value, "30o") <==> head == "30o"
    ensures StartsWith(value, "48o") <==> head == "48o"
  {
    if head == "x" {
      LongestIfClockHeadX(value);
    } else if head == "" {
      LongestIfClockHeadNone(value);
    } else {
      LongestIfClockHeadSpeed(value, head[0], head[1]);
      assert head == [head[0], head[1]] || head == [head[0], head[1], 'o'];
    }
    IfClockByHead(value, head);
    IfClockHeadPrefixes(value, head);
  }

  /**
   * parseOptionC.  The value is accepted exactly when it is one of the
   * twelve words; whether accepted or not, each flag is set from the part of
   * the value the cursor got through, and flags the value does not name
   * keep their previous setting.
   */
  method ParseOptionC(value: string, flags: IfClock) returns (rc: int, r: IfClock)
    requires '\0' !in value
    ensures rc == 0 <==> value in IfClockWords
    ensures rc == 0 || rc == 1
    ensures r.useIFCLK == (flags.useIFCLK || StartsWith(value, "x"))
    ensures r.use48MhzInternalCLK ==
      if StartsWith(value, "30") then false
      else if StartsWith(value, "48") then true
      else flags.use48MhzInternalCLK
    ensures r.redirectToCLKOUT == (flags.redirectToCLKOUT || StartsWith(value, "30o") || StartsWith(value, "48o"))
    ensures r.invertIFCLK == (flags.invertIFCLK || exists h :: h in IfClockHeads && h + "i" <= value)
  {
    r := flags;
    var pos := 0;
    ghost var head := "";
    if At(value, pos) == 'x' {
      r := r.(useIFCLK := true);
      pos := pos + 1;
      head := "x";
    } else if At(value, pos) == '3' && At(value, pos + 1) == '0' {
      r := r.(use48MhzInternalCLK := false);
      pos := pos + 2;
      head := "30";
      if At(value, pos) == 'o' {
        r := r.(redirectToCLKOUT := true);
        pos := pos + 1;
        head := "30o";
      }
    } else if At(value, pos) == '4' && At(value, pos + 1) == '8' {
      r := r.(use48MhzInternalCLK := true);
      pos := pos + 2;
      head := "48";
      if At(value, pos) == 'o' {
        r := r.(redirectToCLKOUT := true);
        pos := pos + 1;
        head := "48o";
      }
    }
    IfClockStage(value, head);
    assert pos == |head|;

    if At(value, pos) == 'i' {
      r := r.(invertIFCLK := true);
      pos := pos + 1;
    }

    if At(value, pos) != '\0' {
      rc := 1;
    } else {
      rc := 0;
    }
  }

  /** The optional speed that opens a `-z` value. */
  const CpuSpeeds: set<string> := {"", "12", "24", "48"}

  /** The optional CLKOUT driver setting after the speed: `o` drives the pin, `z` leaves it floating. */
  const CpuDrivers: set<string> := {"", "o", "z"}

  /** What may follow the speed in a `-z` value: `[o|z][i]`. */
  const CpuClockTails: set<string> := set d, t | d in CpuDrivers && t in Inverts :: d + t

  /** What may precede the optional `i` of a `-z` value: a speed, then a driver letter, each optional. */
  const CpuClockHeads: set<string> := set c, d | c in CpuSpeeds && d in CpuDrivers :: c + d

  /** Every value `-z` accepts: `[12|24|48][o|z][i]`. */
  const CpuClockWords: set<string> := set c, t | c in CpuSpeeds && t in CpuClockTails :: c + t

  lemma CpuClockTailsStart()
    ensures forall c, t :: c in CpuSpeeds && t in CpuClockTails && t != "" ==> t[0] !in c
    ensures forall d, t :: d in CpuDrivers && t in Inverts && t != "" ==> t[0] !in d
    ensures forall d :: d in CpuDrivers ==> 'i' !in d
    ensures forall c :: c in CpuSpeeds ==> 'o' !in c && 'z' !in c && 'i' !in c
  {
    forall c, t | c in CpuSpeeds && t in CpuClockTails && t != ""
      ensures t[0] !in c
    {
      var d, i :| d in CpuDrivers && i in Inverts && t == d + i;
      if d == "" {
        assert t == i;
      }
    }
  }

  /** The cursor after `n` characters of a C string reads what the cursor at 0 reads in the rest of it. */
  lemma AtSuffix(value: string, n: nat, k: nat)
    requires n <= |value|
    ensures At(value[n..], k) == At(value, n + k)
  {
  }

  lemma LongestCpuSpeedNone(value: string)
    requires !(At(value, 0) == '1' && At(value, 1) == '2')
    requires !(At(value, 0) == '2' && At(value, 1) == '4')
    requires !(At(value, 0) == '4' && At(value, 1) == '8')
    ensures LongestHead(value, "", CpuSpeeds)
  {
  }

  lemma LongestCpuSpeed(value: string, d0: char, d1: char)
    requires (d0 == '1' && d1 == '2') || (d0 == '2' && d1 == '4') || (d0 == '4' && d1 == '8')
    requires At(value, 0) == d0 && At(value, 1) == d1
    ensures LongestHead(value, [d0, d1], CpuSpeeds)
  {
  }

  lemma LongestCpuDriver(rest: string)
    ensures At(rest, 0) == 'o' ==> LongestHead(rest, "o", CpuDrivers)
    ensures At(rest, 0) == 'z' ==> LongestHead(rest, "z", CpuDrivers)
    ensures At(rest, 0) != 'o' && At(rest, 0) != 'z' ==> LongestHead(rest, "", CpuDrivers)
  {
  }

  /** The speed prefixes of a `-z` value, read off its longest speed. */
  lemma CpuSpeedPrefixes(value: string, speed: string)
    requires LongestHead(value, speed, CpuSpeeds)
    ensures StartsWith(value, "12") <==> speed == "12"
    ensures StartsWith(value, "24") <==> speed == "24"
    ensures StartsWith(value, "48") <==> speed == "48"
  {
    assert "12" in CpuSpeeds && "24" in CpuSpeeds && "48" in CpuSpeeds;
    if |speed| > 0 {
      assert value[0] == speed[0] && value[1] == speed[1];
    }
  }

  /**
   * A driver letter or an `i` after some speed is one after the longest
   * speed: no speed contains those letters.
   */
  lemma {:induction false} AfterLongestSpeed(value: string, speed: string, t: string)
    requires LongestHead(value, speed, CpuSpeeds)
    requires t != "" && t[0] in "ozi"
    ensures (exists c :: c in CpuSpeeds && c + t <= value) <==> speed + t <= value
  {
    CpuClockTailsStart();
    if c :| c in CpuSpeeds && c + t <= value {
      assert c <= value;
      if c != speed {
        ShorterHead(value, speed, c, CpuSpeeds);
        assert value[|c|] == (c + t)[|c|];
      }
    }
  }

  /** Extending a prefix of a value: `a + b` begins the value exactly when `b` begins what follows `a`. */
  lemma PrefixThen(value: string, a: string, b: string)
    requires a <= value
    ensures a + b <= value <==> b <= value[|a|..]
  {
    if a + b <= value {
      assert b == (a + b)[|a|..] == value[|a|..|a| + |b|];
    }
    if b <= value[|a|..] {
      assert a + b == value[..|a| + |b|];
    }
  }

  /** The driver letters that open the rest of a `-z` value, read off its longest driver. */
  lemma CpuDriverLetters(rest: string, driver: string)
    requires LongestHead(rest, driver, CpuDrivers)
    ensures "o" <= rest <==> driver == "o"
    ensures "z" <= rest <==> driver == "z"
  {
    assert "o" in CpuDrivers && "z" in CpuDrivers;
    if |driver| > 0 {
      assert rest[0] == driver[0];
    }
  }

  /** Which words `-z` accepts, read off the longest speed and the longest driver after it. */
  lemma CpuClockWordsByHeads(value: string, speed: string, driver: string)
    requires '\0' !in value
    requires LongestHead(value, speed, CpuSpeeds)
    requires LongestHead(value[|speed|..], driver, CpuDrivers)
    ensures value in CpuClockWords <==>
      At(value, |speed| + |driver|) == '\0' ||
      (At(value, |speed| + |driver|) == 'i' && At(value, |speed| + |driver| + 1) == '\0')
  {
    var rest := value[|speed|..];
    CpuClockTailsStart();
    SplitAtLongestHead(value, speed, CpuSpeeds, CpuClockTails);
    SplitAtLongestHead(rest, driver, CpuDrivers, Inverts);
    assert forall k :: 0 <= k < |rest| ==> rest[k] == value[|speed| + k];
    assert driver == rest[..|driver|];
    TailAt(rest, |driver|);
    AtSuffix(value, |speed|, |driver|);
    AtSuffix(value, |speed|, |driver| + 1);
  }

  /** Whether `-z` drives CLKOUT, read off the longest speed and the longest driver after it. */
  lemma CpuDriverByHeads(value: string, speed: string, driver: string)
    requires LongestHead(value, speed, CpuSpeeds)
    requires LongestHead(value[|speed|..], driver, CpuDrivers)
    ensures (exists c :: c in CpuSpeeds && c + "o" <= value) <==> driver == "o"
    ensures (exists c :: c in CpuSpeeds && c + "z" <= value) <==> driver == "z"
  {
    AfterLongestSpeed(value, speed, "o");
    AfterLongestSpeed(value, speed, "z");
    PrefixThen(value, speed, "o");
    PrefixThen(value, speed, "z");
    CpuDriverLetters(value[|speed|..], driver);
  }

  /** An `i` after some head of `-z` is an `i` after some driver in what follows the longest speed. */
  lemma CpuInvertAfterSpeed(value: string, speed: string)
    requires LongestHead(value, speed, CpuSpeeds)
    ensures (exists h :: h in CpuClockHeads && h + "i" <= value) <==>
      (exists d :: d in CpuDrivers && d + "i" <= value[|speed|..])
  {
    if h :| h in CpuClockHeads && h + "i" <= value {
      CpuInvertFromHead(value, speed, h);
    }
    if d :| d in CpuDrivers && d + "i" <= value[|speed|..] {
      CpuInvertFromDriver(value, speed, d);
    }
  }

  /** From a head of `-z` followed by `i` to the driver it ends with. */
  lemma CpuInvertFromHead(value: string, speed: string, h: string)
    requires LongestHead(value, speed, CpuSpeeds)
    requires h in CpuClockHeads && h + "i" <= value
    ensures exists d :: d in CpuDrivers && d + "i" <= value[|speed|..]
  {
    var c, d :| c in CpuSpeeds && d in CpuDrivers && h == c + d;
    assert c + (d + "i") <= value by {
      assert c + d + "i" == c + (d + "i");
    }
    AfterLongestSpeed(value, speed, d + "i");
    PrefixThen(value, speed, d + "i");
  }

  /** From a driver followed by `i` after the longest speed back to a head of `-z`. */
  lemma CpuInvertFromDriver(value: string, speed: string, d: string)
    requires LongestHead(value, speed, CpuSpeeds)
    requires d in CpuDrivers && d + "i" <= value[|speed|..]
    ensures exists h :: h in CpuClockHeads && h + "i" <= value
  {
    PrefixThen(value, speed, d + "i");
    assert speed + d in CpuClockHeads;
    assert (speed + d) + "i" == speed + (d + "i");
  }

  /** Whether `-z` inverts CLKOUT, read off the longest speed and the longest driver after it. */
  lemma CpuInvertByHeads(value: string, speed: string, driver: string)
    requires LongestHead(value, speed, CpuSpeeds)
    requires LongestHead(value[|speed|..], driver, CpuDrivers)
    ensures (exists h :: h in CpuClockHeads && h + "i" <= value) <==> At(value, |speed| + |driver|) == 'i'
  {
    var rest := value[|speed|..];
    CpuInvertAfterSpeed(value, speed);
    assert forall d :: d in CpuDrivers ==> 'i' !in d;
    FollowsLongestHead(rest, driver, CpuDrivers, 'i');
    assert driver == rest[..|driver|];
    IAt(rest, |driver|);
    AtSuffix(value, |speed|, |driver|);
  }

  /** The speed `parseOptionZ` steps over is the longest speed the value begins with. */
  lemma CpuSpeedStage(value: string, speed: string)
    requires
      || (speed == "12" && At(value, 0) == '1' && At(value, 1) == '2')
      || (speed == "24" && At(value, 0) == '2' && At(value, 1) == '4')
      || (speed == "48" && At(value, 0) == '4' && At(value, 1) == '8')
      || (speed == "" && !(At(value, 0) == '1' && At(value, 1) == '2')
          && !(At(value, 0) == '2' && At(value, 1) == '4') && !(At(value, 0) == '4' && At(value, 1) == '8'))
    ensures LongestHead(value, speed, CpuSpeeds)
    ensures StartsWith(value, "12") <==> speed == "12"
    ensures StartsWith(value, "24") <==> speed == "24"
    ensures StartsWith(value, "48") <==> speed == "48"
  {
    if speed == "" {
      LongestCpuSpeedNone(value);
    } else {
      LongestCpuSpeed(value, speed[0], speed[1]);
      assert speed == [speed[0], speed[1]];
    }
    CpuSpeedPrefixes(value, speed);
  }

  /**
   * The driver letter `parseOptionZ` steps over after the speed decides the
   * CLKOUT driver; the characters after it decide the inversion and whether
   * the value is accepted.
   */
  lemma CpuDriverStage(value: string, speed: string, driver: string)
    requires '\0' !in value
    requires LongestHead(value, speed, CpuSpeeds)
    requires
      || (driver == "o" && At(value, |speed|) == 'o')
      || (driver == "z" && At(value, |speed|) == 'z')
      || (driver == "" && At(value, |speed|) != 'o' && At(value, |speed|) != 'z')
    ensures value in CpuClockWords <==>
      At(value, |speed| + |driver|) == '\0' ||
      (At(value, |speed| + |driver|) == 'i' && At(value, |speed| + |driver| + 1) == '\0')
    ensures (exists c :: c in CpuSpeeds && c + "o" <= value) <==> driver == "o"
    ensures (exists c :: c in CpuSpeeds && c + "z" <= value) <==> driver == "z"
    ensures (exists h :: h in CpuClockHeads && h + "i" <= value) <==> At(value, |speed| + |driver|) == 'i'
  {
    LongestCpuDriver(value[|speed|..]);
    AtSuffix(value, |speed|, 0);
    CpuClockWordsByHeads(value, speed, driver);
    CpuDriverByHeads(value, speed, driver);
    CpuInvertByHeads(value, speed, driver);
  }

  /**
   * parseOptionZ.  The value is accepted exactly when it is one of the
   * twenty-four words; whether accepted or not, the speed, the CLKOUT driver
   * and the CLKOUT inversion are set from the part of the value the cursor
   * got through, and settings the value does not name keep their previous
   * values.
   */
  method ParseOptionZ(value: string, flags: CpuClock) returns (rc: int, r: CpuClock)
    requires '\0' !in value
    ensures rc == 0 <==> value in CpuClockWords
    ensures rc == 0 || rc == 1
    ensures r.cpuMHz ==
      if StartsWith(value, "12") then MHZ12
      else if StartsWith(value, "24") then MHZ24
      else if StartsWith(value, "48") then MHZ48
      else flags.cpuMHz
    ensures r.enableCLKOUTDriver ==
      if exists c :: c in CpuSpeeds && c + "o" <= value then true
      else if exists c :: c in CpuSpeeds && c + "z" <= value then false
      else flags.enableCLKOUTDriver
    ensures r.invertCLKOUT == (flags.invertCLKOUT || exists h :: h in CpuClockHeads && h + "i" <= value)
  {
    r := flags;
    var pos := 0;
    ghost var speed := "";

    if At(value, pos) == '1' && At(value, pos + 1) == '2' {
      r := r.(cpuMHz := MHZ12);
      pos := pos + 2;
      speed := "12";
    } else if At(value, pos) == '2' && At(value, pos + 1) == '4' {
      r := r.(cpuMHz := MHZ24);
      pos := pos + 2;
      speed := "24";
    } else if At(value, pos) == '4' && At(value, pos + 1) == '8' {
      r := r.(cpuMHz := MHZ48);
      pos := pos + 2;
      speed := "48";
    }
    CpuSpeedStage(value, speed);
    assert pos == |speed|;
    assert r.cpuMHz == if speed == "12" then MHZ12 else if speed == "24" then MHZ24
      else if speed == "48" then MHZ48 else flags.cpuMHz;
    ghost var driver := "";

    if At(value, pos) == 'o' {
      r := r.(enableCLKOUTDriver := true);
      pos := pos + 1;
      driver := "o";
    } else if At(value, pos) == 'z' {
      r := r.(enableCLKOUTDriver := false);
      pos := pos + 1;
      driver := "z";
    }
    CpuDriverStage(value, speed, driver);
    assert pos == |speed| + |driver|;

    if At(value, pos) == 'i' {
      r := r.(invertCLKOUT := true);
      pos := pos + 1;
    }

    if At(value, pos) != '\0' {
      rc := 1;
    } else {
      rc := 0;
    }
  }
}
