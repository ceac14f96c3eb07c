/**
 * The KeyScroll gesture action: it holds the configured modifier keys down
 * for the length of a gesture and, while the gesture moves, taps the up or
 * down key once for every threshold's worth of vertical motion. Horizontal
 * motion is accumulated and drained the same way but sends nothing.
 */
module KeyScrollAction {
  import opened QStrings
  import opened KeyScrollSpec

  class KeyScroll {
    /** Horizontal motion per tick: more is slower. */
    var horizontalSpeed: int
    /** Vertical motion per tick: more is slower. */
    var verticalSpeed: int

    /** Motion accumulated towards the next upward tick. */
    var upKeyScrollSpace: int
    /** Motion accumulated towards the next downward tick. */
    var downKeyScrollSpace: int
    /** Motion accumulated towards the next leftward tick. */
    var leftKeyScrollSpace: int
    /** Motion accumulated towards the next rightward tick. */
    var rightKeyScrollSpace: int

    /** The modifier keys pressed at the start of the gesture and released at its end. */
    var holdDownKeys: seq<KeyCode>
    /** The keys tapped on each upward tick. */
    var pressBetweenKeysUp: seq<KeyCode>
    /** The keys tapped on each downward tick. */
    var pressBetweenKeysDown: seq<KeyCode>

    /** Whether construction logged the warning about unreadable settings. */
    var warned: bool
    /** Every fake key event sent to the display so far, oldest first. */
    var events: seq<KeyEvent>

    /** Each accumulator stays below the threshold of its axis, and each tick taps at most one key. */
    ghost predicate Valid()
      reads this
    {
      && 0 < verticalSpeed && 0 < horizontalSpeed
      && 0 <= upKeyScrollSpace < verticalSpeed
      && 0 <= downKeyScrollSpace < verticalSpeed
      && 0 <= leftKeyScrollSpace < horizontalSpeed
      && 0 <= rightKeyScrollSpace < horizontalSpeed
      && |pressBetweenKeysUp| <= 1 && |pressBetweenKeysDown| <= 1
    }

    /**
     * Reads `SPEED=<n>:<name>+<name>+...`. The speed fields keep 30 unless
     * the SPEED part is well formed; the key part is read whenever there is
     * a second field, whether or not the warning is due, and a missing
     * second field reads as no keys.
     */
    constructor (settings: string, keycodeOf: KeyLookup)
      ensures Valid()
      ensures verticalSpeed == ConfiguredSpeed(settings) && horizontalSpeed == ConfiguredSpeed(settings)
      ensures upKeyScrollSpace == 0 && downKeyScrollSpace == 0
      ensures leftKeyScrollSpace == 0 && rightKeyScrollSpace == 0
      ensures warned == SettingsError(settings)
      ensures holdDownKeys == Lookups(keycodeOf, HoldDownNames(SettingsKeyNames(settings)))
      ensures pressBetweenKeysUp == Lookups(keycodeOf, UpKeyNames(SettingsKeyNames(settings)))
      ensures pressBetweenKeysDown == Lookups(keycodeOf, DownKeyNames(SettingsKeyNames(settings)))
      ensures events == []
    {
      horizontalSpeed, verticalSpeed := DefaultSpeed, DefaultSpeed;
      upKeyScrollSpace, downKeyScrollSpace := 0, 0;
      leftKeyScrollSpace, rightKeyScrollSpace := 0, 0;
      holdDownKeys, pressBetweenKeysUp, pressBetweenKeysDown := [], [], [];
      events := [];
      warned := false;
      new;

      var mainStr := Split(settings, ':');
      var error := ReadSpeed(mainStr);

      // Keys; without a second field there are none to read
      var keys := if |mainStr| >= 2 then Split(mainStr[1], '+') else [];
      assert keys == SettingsKeyNames(settings);
      ReadKeys(keys, keycodeOf);

      warned := error;
    }

    /**
     * The speed part of the settings: both speeds become 100 - 2n when the
     * settings have exactly two fields and the first reads SPEED=n with n
     * in 1..10; otherwise they keep their value and the result is true.
     */
    method ReadSpeed(mainStr: seq<string>) returns (error: bool)
      requires |mainStr| >= 1
      modifies this`verticalSpeed, this`horizontalSpeed
      ensures error == SpeedSetting(mainStr).None?
      ensures match SpeedSetting(mainStr)
              case Some(n) => verticalSpeed == Threshold(n) && horizontalSpeed == Threshold(n)
              case None => verticalSpeed == old(verticalSpeed) && horizontalSpeed == old(horizontalSpeed)
    {
      error := false;
      if |mainStr| != 2 {
        error := true;
      }

      var mainStrSpeed := Split(mainStr[0], '=');
      if !error && |mainStrSpeed| == 2 && mainStrSpeed[0] == "SPEED" {
        var configSpeed := ParseInt(mainStrSpeed[1]);
        if configSpeed.Some? && 1 <= configSpeed.value <= 10 {
          verticalSpeed := 100 - 2 * configSpeed.value;
          horizontalSpeed := 100 - 2 * configSpeed.value;
        } else {
          error := true;
        }
      } else {
        error := true;
      }
    }

    /**
     * The key part of the settings, name by name: a modifier name appends
     * its key to the hold-down keys; the first other name becomes the up
     * key, the second the down key, and later ones are ignored.
     */
    method ReadKeys(keys: seq<string>, keycodeOf: KeyLookup)
      requires holdDownKeys == [] && pressBetweenKeysUp == [] && pressBetweenKeysDown == []
      modifies this`holdDownKeys, this`pressBetweenKeysUp, this`pressBetweenKeysDown
      ensures holdDownKeys == Lookups(keycodeOf, HoldDownNames(keys))
      ensures pressBetweenKeysUp == Lookups(keycodeOf, UpKeyNames(keys))
      ensures pressBetweenKeysDown == Lookups(keycodeOf, DownKeyNames(keys))
    {
      var k: nat := 0;
      for i := 0 to |keys|
        invariant KeysReadFrom(keys[..i], keycodeOf)
        invariant k == |ScrollKeyNames(keys[..i])|
      {
        assert keys[..i + 1] == keys[..i] + [keys[i]];
        k := ReadKey(keys[i], k, keycodeOf, keys[..i]);
      }
      assert keys[..|keys|] == keys;
    }

    /** The three key lists hold what reading `names` gives. */
    ghost predicate KeysReadFrom(names: seq<string>, keycodeOf: KeyLookup)
      reads this
    {
      && holdDownKeys == Lookups(keycodeOf, HoldDownNames(names))
      && pressBetweenKeysUp == Lookups(keycodeOf, UpKeyNames(names))
      && pressBetweenKeysDown == Lookups(keycodeOf, DownKeyNames(names))
    }

    /**
     * One step of the loop in ReadKeys: classifies `key`, given that `k`
     * names that are not modifiers came before it, and returns the new count.
     */
    method ReadKey(key: string, k: nat, keycodeOf: KeyLookup, ghost seen: seq<string>) returns (k': nat)
      requires KeysReadFrom(seen, keycodeOf) && k == |ScrollKeyNames(seen)|
      modifies this`holdDownKeys, this`pressBetweenKeysUp, this`pressBetweenKeysDown
      ensures KeysReadFrom(seen + [key], keycodeOf) && k' == |ScrollKeyNames(seen + [key])|
    {
      k' := k;
      if key == "Control" || key == "Shift" || key == "Super" || key == "Alt" {
        ReadHoldDownKey(key, key + "_L", keycodeOf, seen);
      } else if key == "AltGr" {
        ReadHoldDownKey(key, "Alt_R", keycodeOf, seen);
      } else {
        k' := ReadScrollKey(key, k, keycodeOf, seen);
      }
    }

    /** The branches of ReadKey for a modifier name: its key is appended to the hold-down keys. */
    method ReadHoldDownKey(key: string, keysym: string, keycodeOf: KeyLookup, ghost seen: seq<string>)
      requires IsHoldDownName(key) && keysym == HoldDownKeysym(key)
      requires KeysReadFrom(seen, keycodeOf)
      modifies this`holdDownKeys
      ensures KeysReadFrom(seen + [key], keycodeOf)
      ensures |ScrollKeyNames(seen + [key])| == |ScrollKeyNames(seen)|
    {
      ReadOneMoreName(seen, key);
      LookupsAppend(keycodeOf, HoldDownNames(seen), [keysym]);
      holdDownKeys := holdDownKeys + [keycodeOf(keysym)];
    }

    /**
     * The branch of ReadKey for a name that is not a modifier: the first
     * such name becomes the up key, the second the down key, and the count
     * grows by one.
     */
    method ReadScrollKey(key: string, k: nat, keycodeOf: KeyLookup, ghost seen: seq<string>) returns (k': nat)
      requires !IsHoldDownName(key)
      requires KeysReadFrom(seen, keycodeOf) && k == |ScrollKeyNames(seen)|
      modifies this`pressBetweenKeysUp, this`pressBetweenKeysDown
      ensures KeysReadFrom(seen + [key], keycodeOf) && k' == |ScrollKeyNames(seen + [key])|
    {
      ReadOneMoreName(seen, key);
      var keyCode := keycodeOf(key);
      if k == 0 {
        LookupsAppend(keycodeOf, UpKeyNames(seen), [key]);
        pressBetweenKeysUp := pressBetweenKeysUp + [keyCode];
      }
      if k == 1 {
        LookupsAppend(keycodeOf, DownKeyNames(seen), [key]);
        pressBetweenKeysDown := pressBetweenKeysDown + [keyCode];
      }
      k' := k + 1;
    }

    /** Presses every hold-down key, in list order. */
    method ExecuteStart()
      modifies this`events
      ensures events == old(events) + KeyEvents(holdDownKeys, true)
    {
      ghost var before := events;
      for n := 0 to |holdDownKeys|
        invariant events == before + KeyEvents(holdDownKeys[..n], true)
      {
        KeyEventsAppend(holdDownKeys[..n], holdDownKeys[n], true);
        assert holdDownKeys[..n + 1] == holdDownKeys[..n] + [holdDownKeys[n]];
        events := events + [KeyEvent(holdDownKeys[n], true)];
      }
      assert holdDownKeys[..|holdDownKeys|] == holdDownKeys;
    }

    /**
     * Feeds one sample of motion. Each axis truncates its delta to whole
     * units, adds the magnitude to the accumulator the sign selects (zero
     * counts as up and left) and drains whole thresholds; a vertical tick taps the keys of its
     * direction, a horizontal tick sends nothing.
     */
    method ExecuteUpdate(deltaX: real, deltaY: real)
      requires Valid()
      modifies this`upKeyScrollSpace, this`downKeyScrollSpace
      modifies this`leftKeyScrollSpace, this`rightKeyScrollSpace, this`events
      ensures Valid()
      ensures deltaY > 0.0 ==>
        && downKeyScrollSpace == Drain(old(downKeyScrollSpace) + Truncate(deltaY), verticalSpeed).residual
        && upKeyScrollSpace == old(upKeyScrollSpace)
      ensures deltaY <= 0.0 ==>
        && upKeyScrollSpace == Drain(old(upKeyScrollSpace) - Truncate(deltaY), verticalSpeed).residual
        && downKeyScrollSpace == old(downKeyScrollSpace)
      ensures events == old(events) + (
        if deltaY > 0.0 then Repeat(Taps(pressBetweenKeysDown), Drain(old(downKeyScrollSpace) + Truncate(deltaY), verticalSpeed).ticks)
        else Repeat(Taps(pressBetweenKeysUp), Drain(old(upKeyScrollSpace) - Truncate(deltaY), verticalSpeed).ticks))
      ensures deltaX > 0.0 ==>
        && rightKeyScrollSpace == Drain(old(rightKeyScrollSpace) + Truncate(deltaX), horizontalSpeed).residual
        && leftKeyScrollSpace == old(leftKeyScrollSpace)
      ensures deltaX <= 0.0 ==>
        && leftKeyScrollSpace == Drain(old(leftKeyScrollSpace) - Truncate(deltaX), horizontalSpeed).residual
        && rightKeyScrollSpace == old(rightKeyScrollSpace)
    {
      var dx, dy := Truncate(deltaX), Truncate(deltaY);

      // Vertical scroll
      if deltaY > 0.0 {
        ScrollDown(dy);
      } else {
        ScrollUp(-dy);
      }

      // Horizontal scroll
      if deltaX > 0.0 {
        ScrollRight(dx);
      } else {
        ScrollLeft(-dx);
      }
    }

    /** Adds downward motion and taps the down keys once per whole vertical threshold drained. */
    method ScrollDown(amount: nat)
      requires Valid()
      modifies this`downKeyScrollSpace, this`events
      ensures Valid()
      ensures downKeyScrollSpace == Drain(old(downKeyScrollSpace) + amount, verticalSpeed).residual
      ensures events == old(events) + Repeat(Taps(pressBetweenKeysDown), Drain(old(downKeyScrollSpace) + amount, verticalSpeed).ticks)
    {
      downKeyScrollSpace := downKeyScrollSpace + amount;
      ghost var total, before := downKeyScrollSpace, events;
      ghost var ticks: nat := 0;
      while downKeyScrollSpace >= verticalSpeed
        invariant 0 <= downKeyScrollSpace
        invariant Drain(downKeyScrollSpace, verticalSpeed).residual == Drain(total, verticalSpeed).residual
        invariant ticks + Drain(downKeyScrollSpace, verticalSpeed).ticks == Drain(total, verticalSpeed).ticks
        invariant events == before + Repeat(Taps(pressBetweenKeysDown), ticks)
        decreases downKeyScrollSpace
      {
        downKeyScrollSpace := downKeyScrollSpace - verticalSpeed;
        SendKeysDown();
        ticks := ticks + 1;
      }
    }

    /** Adds upward motion and taps the up keys once per whole vertical threshold drained. */
    method ScrollUp(amount: nat)
      requires Valid()
      modifies this`upKeyScrollSpace, this`events
      ensures Valid()
      ensures upKeyScrollSpace == Drain(old(upKeyScrollSpace) + amount, verticalSpeed).residual
      ensures events == old(events) + Repeat(Taps(pressBetweenKeysUp), Drain(old(upKeyScrollSpace) + amount, verticalSpeed).ticks)
    {
      upKeyScrollSpace := upKeyScrollSpace + amount;
      ghost var total, before := upKeyScrollSpace, events;
      ghost var ticks: nat := 0;
      while upKeyScrollSpace >= verticalSpeed
        invariant 0 <= upKeyScrollSpace
        invariant Drain(upKeyScrollSpace, verticalSpeed).residual == Drain(total, verticalSpeed).residual
        invariant ticks + Drain(upKeyScrollSpace, verticalSpeed).ticks == Drain(total, verticalSpeed).ticks
        invariant events == before + Repeat(Taps(pressBetweenKeysUp), ticks)
        decreases upKeyScrollSpace
      {
        upKeyScrollSpace := upKeyScrollSpace - verticalSpeed;
        SendKeysUp();
        ticks := ticks + 1;
      }
    }

    /** Adds rightward motion and drains whole horizontal thresholds; nothing is sent for them. */
    method ScrollRight(amount: nat)
      requires Valid()
      modifies this`rightKeyScrollSpace
      ensures Valid()
      ensures rightKeyScrollSpace == Drain(old(rightKeyScrollSpace) + amount, horizontalSpeed).residual
    {
      rightKeyScrollSpace := rightKeyScrollSpace + amount;
      ghost var total := rightKeyScrollSpace;
      while rightKeyScrollSpace >= horizontalSpeed
        invariant 0 <= rightKeyScrollSpace
        invariant Drain(rightKeyScrollSpace, horizontalSpeed).residual == Drain(total, horizontalSpeed).residual
        decreases rightKeyScrollSpace
      {
        rightKeyScrollSpace := rightKeyScrollSpace - horizontalSpeed;
      }
    }

    /** Adds leftward motion and drains whole horizontal thresholds; nothing is sent for them. */
    method ScrollLeft(amount: nat)
      requires Valid()
      modifies this`leftKeyScrollSpace
      ensures Valid()
      ensures leftKeyScrollSpace == Drain(old(leftKeyScrollSpace) + amount, horizontalSpeed).residual
    {
      leftKeyScrollSpace := leftKeyScrollSpace + amount;
      ghost var total := leftKeyScrollSpace;
      while leftKeyScrollSpace >= horizontalSpeed
        invariant 0 <= leftKeyScrollSpace
        invariant Drain(leftKeyScrollSpace, horizontalSpeed).residual == Drain(total, horizontalSpeed).residual
        decreases leftKeyScrollSpace
      {
        leftKeyScrollSpace := leftKeyScrollSpace - horizontalSpeed;
      }
    }

    /** Releases every hold-down key, in the order they were pressed. */
    method ExecuteFinish()
      modifies this`events
      ensures events == old(events) + KeyEvents(holdDownKeys, false)
    {
      ghost var before := events;
      for n := 0 to |holdDownKeys|
        invariant events == before + KeyEvents(holdDownKeys[..n], false)
      {
        KeyEventsAppend(holdDownKeys[..n], holdDownKeys[n], false);
        assert holdDownKeys[..n + 1] == holdDownKeys[..n] + [holdDownKeys[n]];
        events := events + [KeyEvent(holdDownKeys[n], false)];
      }
      assert holdDownKeys[..|holdDownKeys|] == holdDownKeys;
    }

    /** One upward tick: presses and releases each up key in turn. */
    method SendKeysUp()
      modifies this`events
      ensures events == old(events) + Taps(pressBetweenKeysUp)
    {
      ghost var before := events;
      for n := 0 to |pressBetweenKeysUp|
        invariant events == before + Taps(pressBetweenKeysUp[..n])
      {
        var key := pressBetweenKeysUp[n];
        TapsAppend(pressBetweenKeysUp[..n], key);
        assert pressBetweenKeysUp[..n + 1] == pressBetweenKeysUp[..n] + [key];
        events := events + [KeyEvent(key, true)];
        events := events + [KeyEvent(key, false)];
      }
      assert pressBetweenKeysUp[..|pressBetweenKeysUp|] == pressBetweenKeysUp;
    }

    /** One downward tick: presses and releases each down key in turn. */
    method SendKeysDown()
      modifies this`events
      ensures events == old(events) + Taps(pressBetweenKeysDown)
    {
      ghost var before := events;
      for n := 0 to |pressBetweenKeysDown|
        invariant events == before + Taps(pressBetweenKeysDown[..n])
      {
        var key := pressBetweenKeysDown[n];
        TapsAppend(pressBetweenKeysDown[..n], key);
        assert pressBetweenKeysDown[..n + 1] == pressBetweenKeysDown[..n] + [key];
        events := events + [KeyEvent(key, true)];
        events := events + [KeyEvent(key, false)];
      }
      assert pressBetweenKeysDown[..|pressBetweenKeysDown|] == pressBetweenKeysDown;
    }
  }
}
