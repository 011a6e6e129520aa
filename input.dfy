/** The virtual-key input manager: key and scan code bindings to names, a state and a meta state per
  * name, an optional pending rebind, and a queue of typed code points. The Java class keeps all of
  * this in static fields; here it is one object. */
module Input {
  import opened Java
  import opened Keys
  import opened JavaStrings

  datatype KeyState = UP | DOWN | RELEASED | PRESSED

  /** The meta states the manager uses. */
  datatype MetaState = NONE | DELAYED

  /** A frame's end: a fresh press becomes held, a fresh release becomes idle. */
  function Settled(s: KeyState): (t: KeyState)
    ensures t == UP || t == DOWN
    ensures (s == UP || s == DOWN) ==> t == s
  {
    match s
    case PRESSED => DOWN
    case RELEASED => UP
    case _ => s
  }

  function SettleStates(states: map<string, KeyState>): (r: map<string, KeyState>)
    ensures r.Keys == states.Keys
  {
    map k | k in states :: Settled(states[k])
  }

  /** The meta states after a frame: a delayed name that has a key state goes back to `NONE`. */
  function SettleMeta(meta: map<Option<string>, MetaState>, names: set<string>): (r: map<Option<string>, MetaState>)
    ensures r.Keys == meta.Keys
  {
    map k | k in meta :: if k.Some? && k.value in names && meta[k] == DELAYED then NONE else meta[k]
  }

  /** After a frame no key is pressed or released this frame, and no key changed between held and idle. */
  lemma SettleStatesMeaning(states: map<string, KeyState>, k: string)
    requires k in states
    ensures var r := SettleStates(states)[k];
      (r == UP || r == DOWN) && (r == DOWN <==> states[k] == DOWN || states[k] == PRESSED)
  {
  }

  /** Ending a frame twice is ending it once. */
  lemma SettleIdempotent(states: map<string, KeyState>, meta: map<Option<string>, MetaState>)
    ensures SettleStates(SettleStates(states)) == SettleStates(states)
    ensures SettleMeta(SettleMeta(meta, states.Keys), SettleStates(states).Keys) == SettleMeta(meta, states.Keys)
  {
    var s1 := SettleStates(states);
    assert SettleStates(s1) == s1 by {
      forall k | k in s1 ensures SettleStates(s1)[k] == s1[k] {
      }
    }
  }

  /** The name bound to an event: the scan code binding first, then the key code binding; `None` plays `null`. */
  function Lookup(keyMap: map<string, string>, scanMap: map<string, string>, key: int, scan: int, mods: int): (r: Option<string>)
    ensures ScanRef(scan, mods) in scanMap ==> r == Some(scanMap[ScanRef(scan, mods)])
    ensures r.None? <==> ScanRef(scan, mods) !in scanMap && KeyRef(key, mods) !in keyMap
  {
    if ScanRef(scan, mods) in scanMap then Some(scanMap[ScanRef(scan, mods)])
    else if KeyRef(key, mods) in keyMap then Some(keyMap[KeyRef(key, mods)])
    else None
  }

  /** A key code binding is consulted only when no scan code binding exists for the event. */
  lemma LookupFallsBackToKey(keyMap: map<string, string>, scanMap: map<string, string>, key: int, scan: int, mods: int)
    requires ScanRef(scan, mods) !in scanMap && KeyRef(key, mods) in keyMap
    ensures Lookup(keyMap, scanMap, key, scan, mods) == Some(keyMap[KeyRef(key, mods)])
  {
  }

  /** Binding a scan code shadows any key code binding for the same modifiers. */
  lemma ScanBindingWins(keyMap: map<string, string>, scanMap: map<string, string>, key: int, scan: int, mods: int, name: string)
    ensures Lookup(keyMap, scanMap[ScanRef(scan, mods) := name], key, scan, mods) == Some(name)
  {
  }

  /** The first UTF-16 unit of `Character.toChars(cp)`: the code point itself below 0x10000, else its
    * high surrogate; a value that is not a code point raises `IllegalArgumentException`. */
  function FirstCodeUnit(cp: int): (r: Result<int>)
    ensures r.Ok? <==> 0 <= cp <= 0x10FFFF
    ensures r.Throws? ==> r.ex == IllegalArgument
    ensures 0 <= cp < 0x10000 ==> r == Ok(cp)
    ensures 0x10000 <= cp <= 0x10FFFF ==>
      r.Ok? && 0xD800 <= r.value < 0xDC00 && (r.value - 0xD800) * 0x400 + 0x10000 <= cp < (r.value - 0xD800 + 1) * 0x400 + 0x10000
  {
    if cp < 0 || cp > 0x10FFFF then Throws(IllegalArgument)
    else if cp < 0x10000 then Ok(cp)
    else Ok(0xD800 + (cp - 0x10000) / 0x400)
  }

  /** The bindings, states and pending rebind the key callback works on. */
  datatype KeyboardState = KeyboardState(
    rebind: string,
    keyMap: map<string, string>,
    scanMap: map<string, string>,
    states: map<string, KeyState>,
    metaStates: map<Option<string>, MetaState>)

  /** What one key callback does. A repeat only marks the bound name delayed. Otherwise a delayed mark
    * is cleared; a release with a rebind pending binds the scan code to the pending name; a press or
    * release of a bound name with a state records it; and an event whose name has no state drops the
    * event's key code and scan code bindings. */
  function KeyEvent(kb: KeyboardState, key: int, scan: int, mods: int, action: int): KeyboardState
  {
    var name := Lookup(kb.keyMap, kb.scanMap, key, scan, mods);
    if action == GLFW_REPEAT then kb.(metaStates := kb.metaStates[name := DELAYED])
    else
      var meta := if name in kb.metaStates && kb.metaStates[name] == DELAYED
                  then kb.metaStates[name := NONE] else kb.metaStates;
      if action == GLFW_RELEASE && kb.rebind != "" then
        KeyboardState("", kb.keyMap, kb.scanMap[ScanRef(scan, mods) := kb.rebind],
                      kb.states[kb.rebind := UP], meta[Some(kb.rebind) := NONE])
      else if name.Some? && name.value in kb.states then
        var states := if action == GLFW_PRESS then kb.states[name.value := PRESSED]
                      else if action == GLFW_RELEASE then kb.states[name.value := RELEASED]
                      else kb.states;
        kb.(states := states, metaStates := meta)
      else
        kb.(keyMap := kb.keyMap - {KeyRef(key, mods)}, scanMap := kb.scanMap - {ScanRef(scan, mods)}, metaStates := meta)
  }

  /** A repeat changes no binding, no key state and no pending rebind: it only marks the name delayed. */
  lemma RepeatOnlyDelays(kb: KeyboardState, key: int, scan: int, mods: int)
    ensures var after := KeyEvent(kb, key, scan, mods, GLFW_REPEAT);
      var name := Lookup(kb.keyMap, kb.scanMap, key, scan, mods);
      after.keyMap == kb.keyMap && after.scanMap == kb.scanMap && after.states == kb.states &&
      after.rebind == kb.rebind && after.metaStates[name] == DELAYED &&
      forall n :: n in kb.metaStates && n != name ==> n in after.metaStates && after.metaStates[n] == kb.metaStates[n]
  {
  }

  /** With a rebind pending, a release binds the event's scan code to the pending name, resets that
    * name to idle, disarms the rebind, and leaves every other name's state alone. */
  lemma ReleaseCompletesRebind(kb: KeyboardState, key: int, scan: int, mods: int)
    requires kb.rebind != ""
    ensures var after := KeyEvent(kb, key, scan, mods, GLFW_RELEASE);
      after.rebind == "" && after.keyMap == kb.keyMap &&
      ScanRef(scan, mods) in after.scanMap && after.scanMap[ScanRef(scan, mods)] == kb.rebind &&
      Lookup(after.keyMap, after.scanMap, key, scan, mods) == Some(kb.rebind) &&
      after.states.Keys == kb.states.Keys + {kb.rebind} && after.states[kb.rebind] == UP &&
      forall n :: n in kb.states && n != kb.rebind ==> after.states[n] == kb.states[n]
  {
  }

  /** Without a pending rebind, a press or release of a bound name that has a state records it. */
  lemma PressAndReleaseRecorded(kb: KeyboardState, key: int, scan: int, mods: int, action: int)
    requires action == GLFW_PRESS || (action == GLFW_RELEASE && kb.rebind == "")
    requires var name := Lookup(kb.keyMap, kb.scanMap, key, scan, mods); name.Some? && name.value in kb.states
    ensures var after := KeyEvent(kb, key, scan, mods, action);
      var name := Lookup(kb.keyMap, kb.scanMap, key, scan, mods).value;
      after.states == kb.states[name := if action == GLFW_PRESS then PRESSED else RELEASED] &&
      after.keyMap == kb.keyMap && after.scanMap == kb.scanMap && after.rebind == kb.rebind
  {
  }

  /** An event whose name is unbound or has no state drops both of its bindings and changes no state. */
  lemma StaleBindingsDropped(kb: KeyboardState, key: int, scan: int, mods: int, action: int)
    requires action != GLFW_REPEAT && !(action == GLFW_RELEASE && kb.rebind != "")
    requires var name := Lookup(kb.keyMap, kb.scanMap, key, scan, mods); name.None? || name.value !in kb.states
    ensures var after := KeyEvent(kb, key, scan, mods, action);
      KeyRef(key, mods) !in after.keyMap && ScanRef(scan, mods) !in after.scanMap &&
      Lookup(after.keyMap, after.scanMap, key, scan, mods).None? &&
      after.states == kb.states && after.rebind == kb.rebind &&
      forall r :: r in kb.keyMap && r != KeyRef(key, mods) ==> r in after.keyMap && after.keyMap[r] == kb.keyMap[r]
  {
  }

  // ---------------------------------------------------------------- the key-binding file

  /** A character of the regular-expression class `\\w`. */
  predicate IsWordChar(c: char) { IsDigit(c) || 'a' <= c <= 'z' || 'A' <= c <= 'Z' || c == '_' }

  /** The length of the run of decimal digits starting at `i`. */
  function DigitRunFrom(s: string, i: nat): (n: nat)
    requires i <= |s|
    ensures i + n <= |s|
    ensures forall k :: i <= k < i + n ==> IsDigit(s[k])
    ensures i + n < |s| ==> !IsDigit(s[i + n])
    decreases |s| - i
  {
    if i < |s| && IsDigit(s[i]) then 1 + DigitRunFrom(s, i + 1) else 0
  }

  /** The pattern a line of the binding file must match before it is loaded: one or more digits, `#`,
    * exactly one digit, `-`, then one or more word characters. The key-line and the scan-line patterns
    * are the same text, so this one test serves both. */
  predicate IsBindingLine(line: string)
  {
    var n := DigitRunFrom(line, 0);
    n >= 1 && n + 3 < |line| && line[n] == '#' && IsDigit(line[n + 1]) && line[n + 2] == '-' &&
    forall k :: n + 3 <= k < |line| ==> IsWordChar(line[k])
  }

  /** How the binding file stores one binding: the reference, `-`, the name. */
  function SaveLine(ref: string, name: string): (line: string)
    ensures |line| == |ref| + 1 + |name|
    ensures line[..|ref|] == ref && line[|ref|] == '-' && line[|ref| + 1..] == name
  {
    ref + "-" + name
  }

  /** The binding a line of the file stands for: its reference and name, or nothing for a line that
    * does not match. A binding read back is always a key code reference, and the line is exactly how
    * that binding is saved. */
  function BindingOf(line: string): (b: Option<(string, string)>)
    ensures b.Some? <==> IsBindingLine(line)
    ensures b.Some? ==> line == SaveLine(b.value.0, b.value.1) && '#' in b.value.0 && b.value.1 != []
  {
    if IsBindingLine(line) then
      var n := DigitRunFrom(line, 0);
      assert line == line[..n + 2] + "-" + line[n + 3..];
      assert line[..n + 2][n] == '#';
      Some((line[..n + 2], line[n + 3..]))
    else None
  }

  /** `line.split("-")` on a line that matches yields the two halves `BindingOf` names. */
  lemma BindingLineSplits(line: string)
    requires IsBindingLine(line)
    ensures Split(Lit('-'), line) == [BindingOf(line).value.0, BindingOf(line).value.1]
  {
    var n := DigitRunFrom(line, 0);
    var a, b := line[..n + 2], line[n + 3..];
    assert Clean(Lit('-'), a) by {
      forall k | 0 <= k < |a| ensures a[k] != '-' {
        assert a[k] == line[k];
      }
    }
    assert Clean(Lit('-'), b) by {
      forall k | 0 <= k < |b| ensures b[k] != '-' {
        assert b[k] == line[n + 3 + k];
      }
    }
    JoinPair(a, b, "-");
    assert Join([a, b], Sep(Lit('-'))) == line;
    SplitJoin(Lit('-'), [a, b]);
  }

  /** A key binding saved with a non-negative key code, a modifier mask below ten and a name of word
    * characters reads back as the same binding. */
  lemma SavedKeyBindingReloads(key: int, mods: int, name: string)
    requires key >= 0 && 0 <= mods <= 9
    requires name != [] && forall k :: 0 <= k < |name| ==> IsWordChar(name[k])
    ensures BindingOf(SaveLine(KeyRef(key, mods), name)) == Some((KeyRef(key, mods), name))
  {
    var line := SaveLine(KeyRef(key, mods), name);
    var digits := IntToString(key);
    var L := |digits|;
    assert IntToString(mods) == [DigitChar(mods)];
    assert line == digits + "#" + [DigitChar(mods)] + "-" + name;
    var n := DigitRunFrom(line, 0);
    assert line[L] == '#';
    assert forall k :: 0 <= k < L ==> line[k] == digits[k];
    assert n == L;
    forall k | n + 3 <= k < |line| ensures IsWordChar(line[k]) {
      assert line[k] == name[k - n - 3];
    }
    assert IsBindingLine(line);
    assert line[..n + 2] == KeyRef(key, mods);
    assert line[n + 3..] == name;
  }

  /** A saved scan code binding never reads back: its reference has `$` where the pattern wants `#`. */
  lemma SavedScanBindingLost(scan: int, mods: int, name: string)
    ensures BindingOf(SaveLine(ScanRef(scan, mods), name)) == None
  {
    var line := SaveLine(ScanRef(scan, mods), name);
    var digits := IntToString(scan);
    var L := |digits|;
    assert line == digits + "$" + IntToString(mods) + "-" + name;
    var n := DigitRunFrom(line, 0);
    if scan < 0 {
      assert line[0] == '-';
      assert n == 0;
    } else {
      assert line[L] == '$';
      assert forall k :: 0 <= k < L ==> line[k] == digits[k];
      assert n >= L;
    }
  }

  /** A key binding whose modifier mask has two digits (`Ctrl` with `Super` is 10) never reads back. */
  lemma SavedWideModsLost(key: int, mods: int, name: string)
    requires mods >= 10
    ensures BindingOf(SaveLine(KeyRef(key, mods), name)) == None
  {
    var line := SaveLine(KeyRef(key, mods), name);
    var digits := IntToString(key);
    var L := |digits|;
    var m := IntToString(mods);
    assert |m| >= 2 && IsDigit(m[1]) by {
      assert m == NatToString(mods);
    }
    assert line == digits + "#" + m + "-" + name;
    var n := DigitRunFrom(line, 0);
    if key < 0 {
      assert line[0] == '-';
      assert n == 0;
    } else {
      assert line[L] == '#';
      assert forall k :: 0 <= k < L ==> line[k] == digits[k];
      assert n == L;
      assert line[L + 2] == m[1];
    }
  }

  /** Loading one line of the binding file: a matching line registers its reference under its name,
    * with the name up and not delayed; any other line is skipped. */
  function LoadLineF(kb: KeyboardState, line: string): (k: KeyboardState)
    ensures BindingOf(line).None? ==> k == kb
    ensures BindingOf(line).Some? ==> var (ref, name) := BindingOf(line).value;
      k.keyMap == kb.keyMap[ref := name] && k.states == kb.states[name := UP] &&
      k.metaStates == kb.metaStates[Some(name) := NONE]
    ensures k.rebind == kb.rebind && k.scanMap == kb.scanMap
  {
    match BindingOf(line)
    case None => kb
    case Some((ref, name)) =>
      kb.(keyMap := kb.keyMap[ref := name], states := kb.states[name := UP],
          metaStates := kb.metaStates[Some(name) := NONE])
  }

  /** The lines of the file loaded front to back. */
  function LoadLinesF(kb: KeyboardState, lines: seq<string>): KeyboardState
    decreases |lines|
  {
    if lines == [] then kb else LoadLinesF(LoadLineF(kb, lines[0]), lines[1..])
  }

  /** Loading a file leaves the scan code bindings and the pending rebind alone, and every key code
    * reference it adds comes from a line of the file. */
  lemma {:induction false} LoadKeepsScanBindings(kb: KeyboardState, lines: seq<string>)
    ensures LoadLinesF(kb, lines).scanMap == kb.scanMap
    ensures LoadLinesF(kb, lines).rebind == kb.rebind
    ensures forall r :: r in LoadLinesF(kb, lines).keyMap && r !in kb.keyMap ==>
              exists i :: 0 <= i < |lines| && BindingOf(lines[i]).Some? && BindingOf(lines[i]).value.0 == r
    decreases |lines|
  {
    if lines != [] {
      var kb1 := LoadLineF(kb, lines[0]);
      LoadKeepsScanBindings(kb1, lines[1..]);
      forall r | r in LoadLinesF(kb, lines).keyMap && r !in kb.keyMap
        ensures exists i :: 0 <= i < |lines| && BindingOf(lines[i]).Some? && BindingOf(lines[i]).value.0 == r
      {
        if r in kb1.keyMap {
          assert BindingOf(lines[0]).Some? && BindingOf(lines[0]).value.0 == r;
        } else {
          var i :| 0 <= i < |lines[1..]| && BindingOf(lines[1..][i]).Some? && BindingOf(lines[1..][i]).value.0 == r;
          assert lines[1..][i] == lines[i + 1];
        }
      }
    }
  }

  /** `Character.getNumericValue` for the digits and Latin letters: ASCII and fullwidth digits are
    * worth 0 to 9, ASCII and fullwidth letters of either case 10 to 35, anything else -1. */
  function NumericValue(c: char): (v: int)
    ensures -1 <= v <= 35
    ensures IsDigit(c) ==> v == DigitValue(c)
  {
    if '0' <= c <= '9' then c as int - '0' as int
    else if 'a' <= c <= 'z' then c as int - 'a' as int + 10
    else if 'A' <= c <= 'Z' then c as int - 'A' as int + 10
    else if '\U{FF10}' <= c <= '\U{FF19}' then c as int - 0xFF10
    else if '\U{FF41}' <= c <= '\U{FF5A}' then c as int - 0xFF41 + 10
    else if '\U{FF21}' <= c <= '\U{FF3A}' then c as int - 0xFF21 + 10
    else -1
  }

  /** A letter is worth the same in either case. */
  lemma NumericValueCaseless(c: char)
    requires 'a' <= c <= 'z'
    ensures NumericValue(c) == NumericValue((c as int - 32) as char) >= 10
  {
  }

  class InputManager {
    var rebind: string
    var keyMap: map<string, string>
    var scanMap: map<string, string>
    var states: map<string, KeyState>
    var metaStates: map<Option<string>, MetaState>
    /** The queued code points; only their multiset and least element are observed. */
    var charQueue: seq<int>
    /** Whether the binding file is read and written at all; off until switched on. */
    var useSaveFile: bool

    constructor ()
      ensures rebind == "" && keyMap == map[] && scanMap == map[] && states == map[]
      ensures metaStates == map[] && charQueue == [] && !useSaveFile
    {
      rebind := "";
      keyMap, scanMap, states, metaStates := map[], map[], map[], map[];
      charQueue := [];
      useSaveFile := false;
    }

    /** Called at the end of each frame: settles every key state and clears delayed meta states. */
    method Update()
      modifies this`states, this`metaStates
      ensures states == SettleStates(old(states))
      ensures metaStates == SettleMeta(old(metaStates), old(states).Keys)
    {
      var st, ms := states, metaStates;
      var todo := st.Keys;
      while todo != {}
        invariant todo <= old(states).Keys && st.Keys == old(states).Keys && ms.Keys == old(metaStates).Keys
        invariant forall k :: k in st ==> st[k] == if k in todo then old(states)[k] else Settled(old(states)[k])
        invariant forall k :: k in ms ==>
          ms[k] == if k.Some? && k.value in old(states) && k.value !in todo && old(metaStates)[k] == DELAYED then NONE else old(metaStates)[k]
        decreases |todo|
      {
        var key :| key in todo;
        if st[key] == PRESSED {
          st := st[key := DOWN];
        }
        if st[key] == RELEASED {
          st := st[key := UP];
        }
        if Some(key) in ms && ms[Some(key)] == DELAYED {
          ms := ms[Some(key) := NONE];
        }
        todo := todo - {key};
      }
      states, metaStates := st, ms;
    }

    /** Arms a rebind of `name`, which only a name with a key state can be. */
    method Rebind(name: string)
      modifies this`rebind
      ensures rebind == if name in states then name else old(rebind)
    {
      if name in states {
        rebind := name;
      }
    }

    /** The part of the manager the key callback reads and writes. */
    function Keyboard(): KeyboardState
      reads this
    {
      KeyboardState(rebind, keyMap, scanMap, states, metaStates)
    }

    /** The key callback. */
    method UpdateInput(key: int, scan: int, mods: int, action: int)
      modifies this`rebind, this`keyMap, this`scanMap, this`states, this`metaStates
      ensures Keyboard() == KeyEvent(old(Keyboard()), key, scan, mods, action)
    {
      var refKey := KeyRef(key, mods);
      var refScan := ScanRef(scan, mods);
      var keyName := GetKeyName(key, scan, mods);
      if action == GLFW_REPEAT {
        metaStates := metaStates[keyName := DELAYED];
        return;
      } else if CheckMetaState(keyName, DELAYED) {
        metaStates := metaStates[keyName := NONE];
      }
      if action == GLFW_RELEASE && rebind != "" {
        RegisterScan(refScan, rebind);
        rebind := "";
        return;
      }
      if keyName.Some? && keyName.value in states {
        if action == GLFW_PRESS {
          states := states[keyName.value := PRESSED];
        } else if action == GLFW_RELEASE {
          states := states[keyName.value := RELEASED];
        }
      } else {
        keyMap := keyMap - {refKey};
        scanMap := scanMap - {refScan};
      }
    }

    function GetKeyName(key: int, scan: int, mods: int): (r: Option<string>)
      reads this
      ensures r == Lookup(keyMap, scanMap, key, scan, mods)
    {
      Lookup(keyMap, scanMap, key, scan, mods)
    }

    method QueueChar(codepoint: int)
      modifies this`charQueue
      ensures multiset(charQueue) == multiset(old(charQueue)) + multiset{codepoint}
    {
      charQueue := charQueue + [codepoint];
    }

    /** `queueChar(char)`: queues the character's numeric value, not its code point. */
    method QueueCharValue(c: char)
      modifies this`charQueue
      ensures multiset(charQueue) == multiset(old(charQueue)) + multiset{NumericValue(c)}
    {
      QueueChar(NumericValue(c));
    }

    method UseSaveFile(use: bool)
      modifies this`useSaveFile
      ensures useSaveFile == use
    {
      useSaveFile := use;
    }

    /** One line of the binding file: a line matching the pattern is split at `-` and its halves are
      * registered as a key code binding. The scan code branch tests the same pattern again, so it is
      * never taken. */
    method LoadLine(line: string)
      modifies this`keyMap, this`states, this`metaStates
      ensures Keyboard() == LoadLineF(old(Keyboard()), line)
    {
      if IsBindingLine(line) {
        var split := Split(Lit('-'), line);
        BindingLineSplits(line);
        RegisterKey(split[0], split[1]);
      }
    }

    /** `loadInputs` given the file's lines, or `None` when the file does not exist (it is then
      * created empty). Nothing is loaded unless the save file is in use. */
    method LoadInputs(file: Option<seq<string>>)
      modifies this`keyMap, this`states, this`metaStates
      ensures !useSaveFile || file.None? ==> Keyboard() == old(Keyboard())
      ensures useSaveFile && file.Some? ==> Keyboard() == LoadLinesF(old(Keyboard()), file.value)
    {
      if !useSaveFile || file.None? {
        return;
      }
      var lines := file.value;
      var i := 0;
      while i < |lines|
        invariant 0 <= i <= |lines|
        invariant LoadLinesF(old(Keyboard()), lines) == LoadLinesF(Keyboard(), lines[i..])
      {
        assert lines[i..][1..] == lines[i + 1..];
        LoadLine(lines[i]);
        i := i + 1;
      }
    }

    /** Polls the queue: the smallest queued code point, not the oldest; an empty queue yields `null`,
      * whose unboxing raises `NullPointerException`. */
    method NextCharUnicode() returns (r: Result<int>)
      modifies this`charQueue
      ensures old(charQueue) == [] ==> r == Throws(NullPointer) && charQueue == []
      ensures old(charQueue) != [] ==>
        r.Ok? && r.value in old(charQueue) && (forall x :: x in old(charQueue) ==> r.value <= x) &&
        multiset(charQueue) == multiset(old(charQueue)) - multiset{r.value}
    {
      if charQueue == [] {
        return Throws(NullPointer);
      }
      var q := charQueue;
      var best, i := 0, 1;
      while i < |q|
        invariant 0 <= best < i <= |q|
        invariant forall j :: 0 <= j < i ==> q[best] <= q[j]
      {
        if q[i] < q[best] {
          best := i;
        }
        i := i + 1;
      }
      assert q == q[..best] + [q[best]] + q[best + 1..];
      charQueue := q[..best] + q[best + 1..];
      r := Ok(q[best]);
    }

    /** Polls the queue and converts the code point to its first UTF-16 unit. */
    method NextChar() returns (r: Result<int>)
      modifies this`charQueue
      ensures old(charQueue) == [] ==> r == Throws(NullPointer) && charQueue == []
      ensures old(charQueue) != [] ==> exists m ::
        m in old(charQueue) && (forall x :: x in old(charQueue) ==> m <= x) &&
        multiset(charQueue) == multiset(old(charQueue)) - multiset{m} && r == FirstCodeUnit(m)
    {
      var cp := NextCharUnicode();
      if cp.Throws? {
        return Throws(cp.ex);
      }
      r := FirstCodeUnit(cp.value);
    }

    function HasNextChar(): (b: bool)
      reads this
      ensures b <==> multiset(charQueue) != multiset{}
    {
      charQueue != []
    }

    method ClearCharQueue()
      modifies this`charQueue
      ensures charQueue == []
    {
      charQueue := [];
    }

    /** Forgets a name's state; its bindings and meta state stay. */
    method RemoveKey(name: string)
      modifies this`states
      ensures states == old(states) - {name}
    {
      states := states - {name};
    }

    function GetKeyState(name: string): (r: Option<KeyState>)
      reads this
      ensures r.Some? <==> name in states
      ensures r.Some? ==> r.value == states[name]
    {
      if name in states then Some(states[name]) else None
    }

    function GetMetaState(name: Option<string>): (r: Option<MetaState>)
      reads this
      ensures r.Some? <==> name in metaStates
      ensures r.Some? ==> r.value == metaStates[name]
    {
      if name in metaStates then Some(metaStates[name]) else None
    }

    predicate CheckState(name: string, s: KeyState)
      reads this
    {
      GetKeyState(name) == Some(s)
    }

    predicate CheckMetaState(name: Option<string>, s: MetaState)
      reads this
    {
      GetMetaState(name) == Some(s)
    }

    function WasPressed(name: string): (b: bool)
      reads this
      ensures b <==> name in states && states[name] == PRESSED
    {
      CheckState(name, PRESSED)
    }

    function WasReleased(name: string): (b: bool)
      reads this
      ensures b <==> name in states && states[name] == RELEASED
    {
      CheckState(name, RELEASED)
    }

    function IsDown(name: string): (b: bool)
      reads this
      ensures b <==> name in states && states[name] == DOWN
    {
      CheckState(name, DOWN)
    }

    function IsUp(name: string): (b: bool)
      reads this
      ensures b <==> name in states && states[name] == UP
    {
      CheckState(name, UP)
    }

    /** Held down long enough for the key to repeat. */
    function IsDownDelay(name: string): (b: bool)
      reads this
      ensures b <==> name in states && states[name] == DOWN && Some(name) in metaStates && metaStates[Some(name)] == DELAYED
    {
      CheckState(name, DOWN) && CheckMetaState(Some(name), DELAYED)
    }

    method RegisterScan(ref: string, name: string)
      modifies this`scanMap, this`states, this`metaStates
      ensures scanMap == old(scanMap)[ref := name]
      ensures states == old(states)[name := UP]
      ensures metaStates == old(metaStates)[Some(name) := NONE]
    {
      scanMap := scanMap[ref := name];
      states := states[name := UP];
      metaStates := metaStates[Some(name) := NONE];
    }

    method RegisterScanCode(scan: int, mods: int, name: string)
      modifies this`scanMap, this`states, this`metaStates
      ensures scanMap == old(scanMap)[ScanRef(scan, mods) := name]
      ensures states == old(states)[name := UP]
      ensures metaStates == old(metaStates)[Some(name) := NONE]
    {
      RegisterScan(ScanRef(scan, mods), name);
    }

    method RegisterKey(ref: string, name: string)
      modifies this`keyMap, this`states, this`metaStates
      ensures keyMap == old(keyMap)[ref := name]
      ensures states == old(states)[name := UP]
      ensures metaStates == old(metaStates)[Some(name) := NONE]
    {
      keyMap := keyMap[ref := name];
      states := states[name := UP];
      metaStates := metaStates[Some(name) := NONE];
    }

    method RegisterKeyCode(key: int, mods: int, name: string)
      modifies this`keyMap, this`states, this`metaStates
      ensures keyMap == old(keyMap)[KeyRef(key, mods) := name]
      ensures states == old(states)[name := UP]
      ensures metaStates == old(metaStates)[Some(name) := NONE]
    {
      RegisterKey(KeyRef(key, mods), name);
    }
  }
}
