/** The earlier input manager: key and scan code bindings to names and a state per name, without meta
  * states, rebinding or a character queue. The Java class keeps this in static fields; here it is one
  * object. */
module LegacyInput {
  import opened Java
  import opened Keys

  datatype KeyState = Up | Down | Released | Pressed

  /** A frame's end: a fresh press becomes held, a fresh release becomes idle. */
  function Settled(s: KeyState): (t: KeyState)
    ensures t == Up || t == Down
    ensures t == Down <==> s == Down || s == Pressed
  {
    match s
    case Pressed => Down
    case Released => Up
    case _ => s
  }

  function SettleStates(states: map<string, KeyState>): (r: map<string, KeyState>)
    ensures r.Keys == states.Keys
  {
    map k | k in states :: Settled(states[k])
  }

  /** Ending a frame twice is ending it once. */
  lemma SettleIdempotent(states: map<string, KeyState>)
    ensures SettleStates(SettleStates(states)) == SettleStates(states)
  {
    var s1 := SettleStates(states);
    forall k | k in s1 ensures SettleStates(s1)[k] == s1[k] {
    }
  }

  /** The bindings and states the key callback works on. */
  datatype Keyboard = Keyboard(keyMap: map<string, string>, scanMap: map<string, string>, states: map<string, KeyState>)

  /** The state a press or release gives a name; any other action leaves it as it was. */
  function Hit(states: map<string, KeyState>, name: string, action: int): (r: map<string, KeyState>)
    requires name in states
    ensures r.Keys == states.Keys
    ensures forall n :: n in states && n != name ==> r[n] == states[n]
  {
    if action == GLFW_PRESS then states[name := Pressed]
    else if action == GLFW_RELEASE then states[name := Released]
    else states
  }

  /** The key code half of the callback. A binding whose name has a state records the event; a
    * binding whose name has none makes the callback remove the event's scan reference (not its key
    * reference) from the key code map. */
  function AfterKeyBinding(kb: Keyboard, key: int, scan: int, mods: int, action: int): (r: Keyboard)
    ensures r.scanMap == kb.scanMap && r.states.Keys == kb.states.Keys && r.keyMap.Keys <= kb.keyMap.Keys
  {
    var ref := KeyRef(key, mods);
    if ref !in kb.keyMap then kb
    else if kb.keyMap[ref] in kb.states then kb.(states := Hit(kb.states, kb.keyMap[ref], action))
    else kb.(keyMap := kb.keyMap - {ScanRef(scan, mods)})
  }

  /** The scan code half of the callback, applied to the states the key code half left. */
  function AfterScanBinding(kb: Keyboard, scan: int, mods: int, action: int): (r: Keyboard)
    ensures r.keyMap == kb.keyMap && r.states.Keys == kb.states.Keys && r.scanMap.Keys <= kb.scanMap.Keys
  {
    var ref := ScanRef(scan, mods);
    if ref !in kb.scanMap then kb
    else if kb.scanMap[ref] in kb.states then kb.(states := Hit(kb.states, kb.scanMap[ref], action))
    else kb.(scanMap := kb.scanMap - {ref})
  }

  /** One key callback: repeats are ignored, otherwise the key code binding and then the scan code
    * binding are applied. */
  function KeyEvent(kb: Keyboard, key: int, scan: int, mods: int, action: int): Keyboard
  {
    if action == GLFW_REPEAT then kb
    else AfterScanBinding(AfterKeyBinding(kb, key, scan, mods, action), scan, mods, action)
  }

  /** The callback never adds a binding or a name, and it changes only the states of the names the
    * event is bound to. */
  lemma KeyEventFrame(kb: Keyboard, key: int, scan: int, mods: int, action: int, n: string)
    requires n in kb.states
    requires KeyRef(key, mods) !in kb.keyMap || kb.keyMap[KeyRef(key, mods)] != n
    requires ScanRef(scan, mods) !in kb.scanMap || kb.scanMap[ScanRef(scan, mods)] != n
    ensures var after := KeyEvent(kb, key, scan, mods, action);
      after.keyMap.Keys <= kb.keyMap.Keys && after.scanMap.Keys <= kb.scanMap.Keys &&
      after.states.Keys == kb.states.Keys && after.states[n] == kb.states[n]
  {
  }

  /** One press reaches both names when the key code and the scan code are bound to different names
    * that both have states. */
  lemma PressReachesBothBindings(kb: Keyboard, key: int, scan: int, mods: int)
    requires KeyRef(key, mods) in kb.keyMap && kb.keyMap[KeyRef(key, mods)] in kb.states
    requires ScanRef(scan, mods) in kb.scanMap && kb.scanMap[ScanRef(scan, mods)] in kb.states
    ensures var after := KeyEvent(kb, key, scan, mods, GLFW_PRESS);
      after.states[kb.keyMap[KeyRef(key, mods)]] == Pressed &&
      after.states[kb.scanMap[ScanRef(scan, mods)]] == Pressed &&
      after.keyMap == kb.keyMap && after.scanMap == kb.scanMap
  {
    var mid := AfterKeyBinding(kb, key, scan, mods, GLFW_PRESS);
    var kn, sn := kb.keyMap[KeyRef(key, mods)], kb.scanMap[ScanRef(scan, mods)];
    assert mid.states == kb.states[kn := Pressed];
    assert mid.scanMap == kb.scanMap;
  }

  /** A scan code binding whose name has no state is dropped by the next event on that scan code. */
  lemma StaleScanBindingDropped(kb: Keyboard, key: int, scan: int, mods: int, action: int)
    requires action != GLFW_REPEAT
    requires ScanRef(scan, mods) in kb.scanMap && kb.scanMap[ScanRef(scan, mods)] !in kb.states
    ensures var after := KeyEvent(kb, key, scan, mods, action);
      ScanRef(scan, mods) !in after.scanMap &&
      forall r :: r in kb.scanMap && r != ScanRef(scan, mods) ==> r in after.scanMap && after.scanMap[r] == kb.scanMap[r]
  {
    var mid := AfterKeyBinding(kb, key, scan, mods, action);
    assert mid.scanMap == kb.scanMap && mid.states.Keys == kb.states.Keys;
  }

  /** A key code binding whose name has no state is not dropped: the callback removes the scan reference
    * from the key code map instead, and a key code reference never equals a scan reference. */
  lemma StaleKeyBindingKept(kb: Keyboard, key: int, scan: int, mods: int, action: int)
    requires KeyRef(key, mods) in kb.keyMap && kb.keyMap[KeyRef(key, mods)] !in kb.states
    ensures var after := KeyEvent(kb, key, scan, mods, action);
      KeyRef(key, mods) in after.keyMap && after.keyMap[KeyRef(key, mods)] == kb.keyMap[KeyRef(key, mods)] &&
      (action != GLFW_REPEAT ==> ScanRef(scan, mods) !in after.keyMap)
  {
    assert KeyRef(key, mods) != ScanRef(scan, mods) by {
      assert '#' in KeyRef(key, mods) && '#' !in ScanRef(scan, mods);
    }
  }

  class InputManager {
    var keyMap: map<string, string>
    var scanMap: map<string, string>
    var states: map<string, KeyState>

    constructor ()
      ensures keyMap == map[] && scanMap == map[] && states == map[]
    {
      keyMap, scanMap, states := map[], map[], map[];
    }

    /** The part of the manager the key callback reads and writes. */
    function Bindings(): Keyboard
      reads this
    {
      Keyboard(keyMap, scanMap, states)
    }

    /** Called at the end of each frame: settles every key state. */
    method Update()
      modifies this`states
      ensures states == SettleStates(old(states))
    {
      var st := states;
      var todo := st.Keys;
      while todo != {}
        invariant todo <= old(states).Keys && st.Keys == old(states).Keys
        invariant forall k :: k in st ==> st[k] == if k in todo then old(states)[k] else Settled(old(states)[k])
        decreases |todo|
      {
        var key :| key in todo;
        if st[key] == Pressed {
          st := st[key := Down];
        }
        if st[key] == Released {
          st := st[key := Up];
        }
        todo := todo - {key};
      }
      states := st;
    }

    /** The key callback. */
    method UpdateInput(key: int, scan: int, mods: int, action: int)
      modifies this`keyMap, this`scanMap, this`states
      ensures Bindings() == KeyEvent(old(Bindings()), key, scan, mods, action)
    {
      if action == GLFW_REPEAT {
        return;
      }
      var refKey := KeyRef(key, mods);
      var refScan := ScanRef(scan, mods);
      if refKey in keyMap {
        if keyMap[refKey] in states {
          if action == GLFW_PRESS {
            states := states[keyMap[refKey] := Pressed];
          } else if action == GLFW_RELEASE {
            states := states[keyMap[refKey] := Released];
          }
        } else {
          keyMap := keyMap - {refScan};
        }
      }
      if refScan in scanMap {
        if scanMap[refScan] in states {
          if action == GLFW_PRESS {
            states := states[scanMap[refScan] := Pressed];
          } else if action == GLFW_RELEASE {
            states := states[scanMap[refScan] := Released];
          }
        } else {
          scanMap := scanMap - {refScan};
        }
      }
    }

    /** Forgets a name's state; its bindings stay. */
    method RemoveKey(name: string)
      modifies this`states
      ensures states == old(states) - {name}
    {
      states := states - {name};
    }

    /** A name's state; `None` plays the `null` returned for a name without one. */
    method GetKey(name: string) returns (r: Option<KeyState>)
      ensures r.Some? <==> name in states
      ensures r.Some? ==> r.value == states[name]
    {
      if name in states {
        r := Some(states[name]);
      } else {
        r := None;
      }
    }

    /** Binds a scan reference to `name` and resets the name to idle. */
    method AddScan(ref: string, name: string)
      modifies this`scanMap, this`states
      ensures scanMap == old(scanMap)[ref := name] && states == old(states)[name := Up]
    {
      scanMap := scanMap[ref := name];
      states := states[name := Up];
    }

    method AddScanCode(scan: int, mods: int, name: string)
      modifies this`scanMap, this`states
      ensures scanMap == old(scanMap)[ScanRef(scan, mods) := name] && states == old(states)[name := Up]
    {
      AddScan(ScanRef(scan, mods), name);
    }

    /** Binds a key reference to `name` and resets the name to idle. */
    method AddKey(ref: string, name: string)
      modifies this`keyMap, this`states
      ensures keyMap == old(keyMap)[ref := name] && states == old(states)[name := Up]
    {
      keyMap := keyMap[ref := name];
      states := states[name := Up];
    }

    method AddKeyCode(key: int, mods: int, name: string)
      modifies this`keyMap, this`states
      ensures keyMap == old(keyMap)[KeyRef(key, mods) := name] && states == old(states)[name := Up]
    {
      AddKey(KeyRef(key, mods), name);
    }
  }

  /** After binding a key code, pressing it marks the name pressed, and the frame's end makes it held. */
  lemma BoundKeyPressIsHeld(kb: Keyboard, key: int, scan: int, mods: int, name: string)
    requires ScanRef(scan, mods) !in kb.scanMap
    ensures var bound := Keyboard(kb.keyMap[KeyRef(key, mods) := name], kb.scanMap, kb.states[name := Up]);
      var after := KeyEvent(bound, key, scan, mods, GLFW_PRESS);
      after.states == kb.states[name := Pressed] && SettleStates(after.states)[name] == Down
  {
  }
}
