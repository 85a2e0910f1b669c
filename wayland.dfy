/**
 * The Wayland side of the local handlers: the primary-monitor choice of
 * `get_screen_size`, and `Ydotool`, which drives the pointer and the
 * keyboard by running the `ydotool` program. Every run is recorded as the
 * argument list it would be started with, in order, in the object's
 * trace of commands.
 */
module Wayland {
  import opened Wrappers
  import opened Text
  import opened Keycodes

  // ---------------------------------------------------------------------
  // the screen size
  // ---------------------------------------------------------------------

  /** A monitor as `screeninfo.get_monitors()` reports it. */
  datatype Monitor = Monitor(width: int, height: int, isPrimary: bool)

  /** None of the first `i` monitors is the primary one. */
  predicate NoPrimaryBefore(monitors: seq<Monitor>, i: nat)
    requires i <= |monitors|
  {
    forall j :: 0 <= j < i ==> !monitors[j].isPrimary
  }

  /**
   * `get_screen_size`: the size of the first monitor marked primary; when
   * none is, the size of the first monitor; None without monitors.
   */
  method GetScreenSize(monitors: seq<Monitor>) returns (size: Option<(int, int)>)
    ensures size.None? <==> monitors == []
    ensures forall i :: 0 <= i < |monitors| && monitors[i].isPrimary && NoPrimaryBefore(monitors, i) ==>
      size == Some((monitors[i].width, monitors[i].height))
    ensures monitors != [] && NoPrimaryBefore(monitors, |monitors|) ==>
      size == Some((monitors[0].width, monitors[0].height))
  {
    var i := 0;
    while i < |monitors|
      invariant i <= |monitors|
      invariant NoPrimaryBefore(monitors, i)
    {
      if monitors[i].isPrimary {
        return Some((monitors[i].width, monitors[i].height));
      }
      i := i + 1;
    }
    if monitors != [] {
      return Some((monitors[0].width, monitors[0].height));
    }
    return None;
  }

  // ---------------------------------------------------------------------
  // command lines
  // ---------------------------------------------------------------------

  /**
   * `_run_ydotool`'s command line: the program, its arguments, and
   * `--repeat <count>` when the count is above one.
   */
  function Command(args: seq<string>, count: int): (cmd: seq<string>)
    ensures |cmd| == |args| + 1 + (if count > 1 then 2 else 0)
    ensures cmd[..|args| + 1] == ["ydotool"] + args
  {
    ["ydotool"] + args + (if count > 1 then ["--repeat", IntToString(count)] else [])
  }

  /** `mousemove --absolute -x <x> -y <y>` */
  function MoveArgs(x: int, y: int): seq<string>
  {
    ["mousemove", "--absolute", "-x", IntToString(x), "-y", IntToString(y)]
  }

  /** The codes of the keys that have one, in the order of the keys; the others are dropped. */
  function Codes(keys: seq<string>): (codes: seq<int>)
    ensures |codes| <= |keys|
  {
    if keys == [] then []
    else
      var front := Codes(keys[..|keys| - 1]);
      match Keycode(keys[|keys| - 1])
      case Some(code) => front + [code]
      case None => front
  }

  /** `<code>:1`, a key press. */
  function Press(code: int): string { IntToString(code) + ":1" }

  /** `<code>:0`, a key release. */
  function Release(code: int): string { IntToString(code) + ":0" }

  /** The presses of the codes, in order. */
  function Presses(codes: seq<int>): (args: seq<string>)
    ensures |args| == |codes|
    ensures forall i :: 0 <= i < |codes| ==> args[i] == Press(codes[i])
  {
    seq(|codes|, i requires 0 <= i < |codes| => Press(codes[i]))
  }

  /** The releases of the codes, last code first. */
  function Releases(codes: seq<int>): (args: seq<string>)
    ensures |args| == |codes|
    ensures forall j :: 0 <= j < |codes| ==> args[j] == Release(codes[|codes| - 1 - j])
  {
    seq(|codes|, j requires 0 <= j < |codes| => Release(codes[|codes| - 1 - j]))
  }

  /**
   * The arguments of `key`: every code pressed in order, then released in
   * the reverse order, so that the releases mirror the presses.
   */
  function KeyArgs(codes: seq<int>): (args: seq<string>)
    ensures |args| == 2 * |codes|
    ensures forall i :: 0 <= i < |codes| ==> args[i] == Press(codes[i])
    ensures forall j :: |codes| <= j < 2 * |codes| ==> args[j] == Release(codes[2 * |codes| - 1 - j])
  {
    var presses, releases := Presses(codes), Releases(codes);
    assert forall j :: |codes| <= j < 2 * |codes| ==> (presses + releases)[j] == releases[j - |codes|];
    presses + releases
  }

  /** The commands of one drag: move to the start, press, move to the end, release. */
  function DragCommands(x1: int, y1: int, x2: int, y2: int): seq<seq<string>>
  {
    [Command(MoveArgs(x1, y1), 1), Command(["click", "0x40"], 1), Command(MoveArgs(x2, y2), 1), Command(["click", "0x80"], 1)]
  }

  /** A move, then `count` clicks of the right button (0xC1) or the left one (0xC0). */
  function ClickCommands(x: int, y: int, count: int, right: bool): seq<seq<string>>
  {
    [Command(MoveArgs(x, y), 1), Command(["click", if right then "0xC1" else "0xC0"], count)]
  }

  /** A wheel move by `clicks`, positive up. */
  function ScrollCommand(clicks: int): seq<string>
  {
    Command(["mousemove", "-w", "--", "0", IntToString(clicks)], 1)
  }

  /** The keys with a code pressed in order and released in reverse. */
  function HotkeyCommand(keys: seq<string>, count: int): seq<string>
  {
    Command(["key"] + KeyArgs(Codes(keys)), count)
  }

  /** `n` copies of `xs`, one after another. */
  function Repeat<T>(xs: seq<T>, n: nat): (r: seq<T>)
    ensures |r| == n * |xs|
  {
    if n == 0 then [] else Repeat(xs, n - 1) + xs
  }

  // ---------------------------------------------------------------------
  // the pause before each run
  // ---------------------------------------------------------------------

  /**
   * The pause `_run_ydotool` makes, as written: the walrus operator binds
   * the comparison, so `interval` is a boolean, and the elapsed time is
   * divided by 1000 although `time.time()` counts seconds; `sleep(True)`
   * sleeps one second.
   */
  function PauseAsWritten(now: real, lastActionTime: real, actionPause: real): (sleep: real)
    ensures sleep == 0.0 || sleep == 1.0
  {
    if (now - lastActionTime) / 1000.0 < actionPause then 1.0 else 0.0
  }

  /** The pause that keeps `action_pause` seconds between two runs: what is left of it, if anything. */
  function Pause(now: real, lastActionTime: real, actionPause: real): (sleep: real)
    ensures sleep >= 0.0
    ensures now - lastActionTime + sleep >= actionPause
    ensures actionPause >= 0.0 && now >= lastActionTime ==> sleep <= actionPause
    ensures now - lastActionTime >= actionPause ==> sleep == 0.0
  {
    var elapsed := now - lastActionTime;
    if elapsed < actionPause then actionPause - elapsed else 0.0
  }

  /**
   * As written, a run 0.1 seconds after the last one sleeps a whole second
   * instead of the 0.4 seconds left of the default pause, and a run 100
   * seconds after the last one still sleeps a second instead of not at all.
   */
  lemma PauseAsWrittenOversleeps()
    ensures PauseAsWritten(10.1, 10.0, 0.5) == 1.0 && Pause(10.1, 10.0, 0.5) == 0.4
    ensures PauseAsWritten(110.0, 10.0, 0.5) == 1.0 && Pause(110.0, 10.0, 0.5) == 0.0
  {
  }

  // ---------------------------------------------------------------------
  // the socket
  // ---------------------------------------------------------------------

  /** The environment variable through which `ydotool` is pointed at its daemon's socket. */
  const SocketVariable := "YDOTOOL_SOCKET"

  /** The variables `_run_ydotool` adds to the environment, as written: the variable's name is misspelled. */
  function SocketEnvAsWritten(socketAddress: string): map<string, string>
  {
    if socketAddress != "" then map["YDOOTOOL_SOCKET" := socketAddress] else map[]
  }

  /** The variables that point `ydotool` at a custom socket: none for the default one. */
  function SocketEnv(socketAddress: string): (env: map<string, string>)
    ensures SocketVariable in env <==> socketAddress != ""
    ensures SocketVariable in env ==> env[SocketVariable] == socketAddress
    ensures env.Keys <= {SocketVariable}
  {
    if socketAddress != "" then map[SocketVariable := socketAddress] else map[]
  }

  /** As written, a custom socket address never reaches `ydotool`, which keeps using the default socket. */
  lemma SocketAddressLost(socketAddress: string)
    requires socketAddress != ""
    ensures SocketVariable !in SocketEnvAsWritten(socketAddress)
    ensures SocketVariable in SocketEnv(socketAddress) && SocketEnv(socketAddress)[SocketVariable] == socketAddress
  {
    assert "YDOOTOOL_SOCKET" != SocketVariable by {
      assert |"YDOOTOOL_SOCKET"| != |SocketVariable|;
    }
  }

  // ---------------------------------------------------------------------
  // the ydotool object
  // ---------------------------------------------------------------------

  class Ydotool {
    /** `action_pause`: the pause between two runs, in seconds. */
    var actionPause: real
    const socketAddress: string
    /** The command lines run so far. */
    var commands: seq<seq<string>>

    /** The variables added to the environment of every run. */
    function Environment(): (env: map<string, string>)
      ensures socketAddress != "" ==> SocketVariable in env && env[SocketVariable] == socketAddress
    {
      SocketEnv(socketAddress)
    }

    /** A wrapper with the default pause of half a second and nothing run yet. */
    constructor (socketAddress: string)
      ensures this.socketAddress == socketAddress && actionPause == 0.5 && commands == []
    {
      this.socketAddress := socketAddress;
      actionPause := 0.5;
      commands := [];
    }

    /** `_run_ydotool`: one more command line. */
    method RunYdotool(args: seq<string>, count: int)
      modifies this`commands
      ensures commands == old(commands) + [Command(args, count)]
    {
      var cmd := ["ydotool"] + args;
      if count > 1 {
        cmd := cmd + ["--repeat", IntToString(count)];
      }
      assert cmd == Command(args, count);
      commands := commands + [cmd];
    }

    /** `mousemove` */
    method MouseMove(x: int, y: int, count: int)
      modifies this`commands
      ensures commands == old(commands) + [Command(MoveArgs(x, y), count)]
    {
      RunYdotool(MoveArgs(x, y), count);
    }

    /** `drag`: `count` times a move, a press, a move and a release. */
    method Drag(x1: int, y1: int, x2: int, y2: int, count: int)
      modifies this`commands
      ensures commands == old(commands) + Repeat(DragCommands(x1, y1, x2, y2), if count > 0 then count else 0)
    {
      var n := if count > 0 then count else 0;
      for i := 0 to n
        invariant commands == old(commands) + Repeat(DragCommands(x1, y1, x2, y2), i)
      {
        MouseMove(x1, y1, 1);
        RunYdotool(["click", "0x40"], 1);
        MouseMove(x2, y2, 1);
        RunYdotool(["click", "0x80"], 1);
      }
    }

    /** `scroll` */
    method Scroll(clicks: int)
      modifies this`commands
      ensures commands == old(commands) + [ScrollCommand(clicks)]
    {
      RunYdotool(["mousemove", "-w", "--", "0", IntToString(clicks)], 1);
    }

    /** `click` */
    method Click(x: int, y: int, count: int, right: bool)
      modifies this`commands
      ensures commands == old(commands) + ClickCommands(x, y, count, right)
    {
      MouseMove(x, y, 1);
      var clickKey := if right then "0xC1" else "0xC0";
      RunYdotool(["click", clickKey], count);
    }

    /** `type` */
    method Type(text: string, count: int)
      modifies this`commands
      ensures commands == old(commands) + [Command(["type", text], count)]
    {
      RunYdotool(["type", text], count);
    }

    /** `hotkey`: the codes are looked up one key at a time. */
    method Hotkey(keys: seq<string>, count: int)
      modifies this`commands
      ensures commands == old(commands) + [HotkeyCommand(keys, count)]
    {
      var codes: seq<int> := [];
      for i := 0 to |keys|
        invariant codes == Codes(keys[..i])
      {
        assert keys[..i + 1][..i] == keys[..i];
        var code := Keycode(keys[i]);
        if code.Some? {
          codes := codes + [code.value];
        }
      }
      assert keys[..|keys|] == keys;
      RunYdotool(["key"] + KeyArgs(codes), count);
    }
  }

  // ---------------------------------------------------------------------
  // properties
  // ---------------------------------------------------------------------

  /** `--repeat` carries the count back: it reads as the count that was asked for. */
  lemma RepeatFlag(args: seq<string>, count: int)
    requires count > 1
    ensures Command(args, count)[|args| + 1] == "--repeat"
    ensures ParseInt(Command(args, count)[|args| + 2]) == Some(count)
  {
    ParseIntOfIntToString(count);
  }

  /** With a count of one or less, nothing is added to the arguments. */
  lemma NoRepeatFlag(args: seq<string>, count: int)
    requires count <= 1
    ensures Command(args, count) == ["ydotool"] + args
  {
  }

  /** When every key has a code, the codes are those of the keys, one for one and in order. */
  lemma {:induction false} CodesAllKnown(keys: seq<string>)
    requires forall i :: 0 <= i < |keys| ==> Keycode(keys[i]).Some?
    ensures |Codes(keys)| == |keys|
    ensures forall i :: 0 <= i < |keys| ==> Some(Codes(keys)[i]) == Keycode(keys[i])
  {
    if keys != [] {
      var front := keys[..|keys| - 1];
      CodesAllKnown(front);
    }
  }

  /** When no key has a code, nothing is pressed. */
  lemma {:induction false} CodesNoneKnown(keys: seq<string>)
    requires forall i :: 0 <= i < |keys| ==> Keycode(keys[i]).None?
    ensures Codes(keys) == []
  {
    if keys != [] {
      CodesNoneKnown(keys[..|keys| - 1]);
    }
  }

  /** A key with no code adds nothing to the key sequence. */
  lemma UnknownKeyDropped(keys: seq<string>, key: string)
    requires Keycode(key).None?
    ensures Codes(keys + [key]) == Codes(keys)
  {
    assert (keys + [key])[..|keys|] == keys;
  }

  /** The codes of two runs of keys are the codes of the first run followed by those of the second. */
  lemma {:induction false} CodesAppend(keys: seq<string>, more: seq<string>)
    ensures Codes(keys + more) == Codes(keys) + Codes(more)
    decreases |more|
  {
    if more == [] {
      assert keys + more == keys;
    } else {
      var front, last := more[..|more| - 1], more[|more| - 1];
      CodesAppend(keys, front);
      assert (keys + more)[..|keys + more| - 1] == keys + front;
      assert (keys + more)[|keys + more| - 1] == last;
      match Keycode(last)
      case Some(code) =>
        assert Codes(keys + more) == Codes(keys + front) + [code];
        assert Codes(more) == Codes(front) + [code];
      case None =>
        assert Codes(keys + more) == Codes(keys + front);
        assert Codes(more) == Codes(front);
    }
  }

  /** `ctrl+c`: control pressed, c pressed, c released, control released. */
  lemma CopyHotkey()
    ensures KeyArgs(Codes(["ctrl", "c"])) == [Press(29), Press(46), Release(46), Release(29)]
  {
    assert Codes(["ctrl", "c"]) == [29, 46] by {
      assert ["ctrl", "c"][..1] == ["ctrl"];
      assert Keycode("ctrl") == Some(29);
      assert Keycode("c") == Some(46);
    }
  }
}
