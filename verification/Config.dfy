/** `config.rs`: the lists and the one switch that the theorems depend on. */
module Config {
  import opened Kernel

  datatype Config = Config(
    lemondPid: Pid,
    critical: seq<string>,
    excludeRealtime: seq<string>,
    lowPriority: seq<string>,
    selfRealtime: bool)

  const REALTIME_NICE: int := -20
  const BOOST_NICE: int := -7
  const LOW_PRIORITY_NICE: int := 19

  /** The values compiled into the daemon; `lemondPid` is known at run time only. */
  function Shipped(lemondPid: Pid): Config {
    Config(
      lemondPid,
      [ "/usr/bin/pipewire",
        "/usr/bin/pipewire-pulse",
        "/usr/bin/pipewire-media-session",
        "/usr/bin/wireplumber",
        "/usr/lib/systemd/systemd",
        "/usr/bin/pulseaudio",
        "/usr/bin/pulseeffects",
        "/usr/bin/easyeffects",
        "/usr/bin/kwin_wayland",
        "/usr/bin/gnome-shell",
        "/usr/bin/Xwayland",
        "/usr/lib/Xorg",
        "/usr/bin/gnome-system-monitor",
        "/usr/bin/i3lock",
        "/usr/lib/systemd/systemd-oomd",
        "/usr/bin/ksysguard",
        "/usr/lib/ksysguard/ksgrd_network_helper",
        "/usr/bin/ksysguardd",
        "/usr/bin/Hyprland",
        "/usr/lib/mutter-x11-frames",
        "/usr/bin/plasma-systemmonitor",
        "/usr/bin/cosmic-comp" ],
      ["/usr/bin/gnome-shell", "/usr/bin/Xwayland", "/usr/lib/mutter-x11-frames"],
      ["rustc", "cc", "c++", "gcc", "g++", "makepkg", "cc1"],
      false)
  }

  /** The check made at start: what is excluded from realtime is critical all the same. */
  lemma ShippedExclusionsAreCritical(lemondPid: Pid)
    ensures forall exe | exe in Shipped(lemondPid).excludeRealtime :: exe in Shipped(lemondPid).critical
  {
    var critical := Shipped(lemondPid).critical;
    assert critical[9] in critical && critical[10] in critical && critical[19] in critical;
  }

  /** A string longer than every string of the list. */
  function FreshName(list: seq<string>): (s: string)
    ensures s != "" && s !in list && forall x | x in list :: |x| < |s|
    ensures s[|s| - 1] == 'x'
  {
    if list == [] then "x"
    else
      var s := FreshName(list[1..]);
      if |list[0]| < |s| then s else list[0] + "x"
  }
}
