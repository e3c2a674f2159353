/**
 * Trust classification of processes (src/process.rs): the three tiers,
 * their labels and colours, and the first-match-wins categorizer.
 */
module Process {
  import opened Base
  import opened Text

  /** The trust tier of a process: blocked, needs confirmation, free to kill. */
  datatype ProcessCategory = System | Service | User {

    /** The label shown in the process table. */
    function AsStr(): (r: string)
      ensures CategoryNamed(r) == Some(this)
    {
      match this
      case System => "System"
      case Service => "Service"
      case User => "User"
    }

    /**
     * The terminal colour index of the tier: it names, in the ANSI
     * palette, the colour the process table draws the tier in.
     */
    function ColorCode(): (r: u8)
      ensures 1 <= r <= 3
      ensures AnsiColor(r) == Some(TableColor(this))
    {
      match this
      case System => 1
      case Service => 3
      case User => 2
    }
  }

  /** The tier a label names, if any: the inverse of `AsStr`. */
  function CategoryNamed(s: string): Option<ProcessCategory> {
    if s == "System" then Some(System)
    else if s == "Service" then Some(Service)
    else if s == "User" then Some(User)
    else None
  }

  /** The colours the process table uses for the tiers. */
  datatype Color = Red | Yellow | Green

  /** The colour the process table draws a tier's rows in (src/ui.rs:92-95). */
  function TableColor(c: ProcessCategory): Color {
    match c
    case System => Red
    case Service => Yellow
    case User => Green
  }

  /** The colour an ANSI palette index names, among the three above. */
  function AnsiColor(code: nat): Option<Color> {
    if code == 1 then Some(Red)
    else if code == 2 then Some(Green)
    else if code == 3 then Some(Yellow)
    else None
  }

  /** Different tiers are drawn in different colours. */
  lemma ColorCodeDistinct(a: ProcessCategory, b: ProcessCategory)
    ensures a.ColorCode() == b.ColorCode() <==> a == b
  {
  }

  /** One snapshot row of the process table. */
  datatype ProcessData = ProcessData(
    pid: u32,
    name: string,
    memory: u64,
    cpuUsage: real,
    category: ProcessCategory)

  /** Host-wide figures of one snapshot. */
  datatype GlobalStats = GlobalStats(
    totalMemory: u64,
    usedMemory: u64,
    cpuUsage: real,
    uptime: u64)

  /** The critical process names, as written in the source. */
  const SystemProcs: seq<string> := [
    "System", "Registry", "smss.exe", "csrss.exe", "wininit.exe",
    "services.exe", "lsass.exe", "svchost.exe", "fontdrvhost.exe",
    "Memory Compression", "spoolsv.exe", "winlogon.exe", "dwm.exe"]

  /** The whitelist the categorizer builds: every listed name, lower-cased. */
  function CriticalNames(): (w: set<string>)
    ensures forall n :: n in w ==> IsLower(n)
  {
    set n | n in SystemProcs :: Lower(n)
  }

  /** The directory whose executables are taken to be services. */
  const System32Dir: string := "\\windows\\system32\\"

  /**
   * `str::parse::<u32>`: an optional `+` followed by one or more decimal
   * digits whose value fits in 32 bits.
   */
  function ParseU32(t: string): Option<u32> {
    var digits := if |t| > 0 && t[0] == '+' then t[1..] else t;
    if |digits| > 0 && IsDigits(digits) && DecimalValue(digits) <= U32_MAX then
      Some(DecimalValue(digits))
    else
      None
  }

  /**
   * The pid as the categorizer reads it: rendered in decimal and parsed
   * back as a `u32`, with 0 when parsing fails. Only a pid above
   * `u32::MAX` fails, and every other pid reads back unchanged.
   */
  function PidValue(pid: nat): (r: u32)
    ensures pid <= U32_MAX ==> r == pid
    ensures pid > U32_MAX ==> r == 0
  {
    DecimalRoundTrip(pid);
    match ParseU32(NatToString(pid))
    case Some(v) => v
    case None => 0
  }

  /** Classifies processes; holds the lower-cased critical names. */
  class Categorizer {
    const systemWhitelist: set<string>

    /** Builds the whitelist by inserting each name lower-cased. */
    constructor ()
      ensures systemWhitelist == CriticalNames()
    {
      var whitelist: set<string> := {};
      for i := 0 to |SystemProcs|
        invariant whitelist == set j | 0 <= j < i :: Lower(SystemProcs[j])
      {
        whitelist := whitelist + {Lower(SystemProcs[i])};
      }
      assert whitelist == CriticalNames() by {
        forall n | n in SystemProcs ensures Lower(n) in whitelist {
          var j :| 0 <= j < |SystemProcs| && SystemProcs[j] == n;
        }
      }
      systemWhitelist := whitelist;
    }

    /**
     * First match wins: a whitelisted name, then a pid of at most 4, then an
     * executable under `\windows\system32\`; everything else is a user process.
     */
    function Categorize(name: string, pid: nat, exe: Option<string>): (r: ProcessCategory)
      ensures Lower(name) in systemWhitelist ==> r == System
      ensures r == System <==> Lower(name) in systemWhitelist || PidValue(pid) <= 4
      ensures r == Service <==>
        Lower(name) !in systemWhitelist && PidValue(pid) > 4 &&
        exe.Some? && IsSubstring(Lower(exe.value), System32Dir)
      ensures r == User <==>
        Lower(name) !in systemWhitelist && PidValue(pid) > 4 &&
        (exe.None? || !IsSubstring(Lower(exe.value), System32Dir))
      ensures exe.None? ==> r != Service
    {
      if Lower(name) in systemWhitelist then System
      else if PidValue(pid) <= 4 then System
      else match exe
        case None => User
        case Some(path) =>
          ContainsIff(Lower(path), System32Dir);
          if Contains(Lower(path), System32Dir) then Service else User
    }
  }

  /** Only the lower-cased name matters: any casing of a name gets the same tier. */
  lemma NameCaseIrrelevant(c: Categorizer, name: string, pid: nat, exe: Option<string>)
    ensures c.Categorize(Lower(name), pid, exe) == c.Categorize(name, pid, exe)
  {
    LowerIdempotent(name);
  }

  /** A pid that does not fit in a `u32` reads as 0, so the process is `System`. */
  lemma UnparseablePidIsSystem(c: Categorizer, name: string, pid: nat, exe: Option<string>)
    requires pid > U32_MAX
    ensures c.Categorize(name, pid, exe) == System
  {
  }

  /** `svchost.exe` is whitelisted, so it is `System` in any casing and with any pid. */
  lemma SvchostIsSystem(c: Categorizer, pid: nat, exe: Option<string>)
    requires c.systemWhitelist == CriticalNames()
    ensures c.Categorize("Svchost.exe", pid, exe) == System
  {
    LowerCapitalized('S', "vchost.exe");
    assert "Svchost.exe" == ['S'] + "vchost.exe";
    LowerOfLower(SystemProcs[7]);
    assert Lower(SystemProcs[7]) == "svchost.exe";
    assert Lower(SystemProcs[7]) in CriticalNames();
    assert Lower("Svchost.exe") == "svchost.exe";
    assert Lower("Svchost.exe") in c.systemWhitelist;
  }

  /** `whoami.exe` has a length no critical name has, so it is not whitelisted. */
  lemma WhoamiNotCritical()
    ensures "whoami.exe" !in CriticalNames()
  {
  }

  /** A non-critical program in System32 is a `Service`. */
  lemma System32ProgramIsService(c: Categorizer)
    requires c.systemWhitelist == CriticalNames()
    ensures c.Categorize("whoami.exe", 1234, Some("c:" + System32Dir + "whoami.exe")) == Service
  {
    var path := "c:" + System32Dir + "whoami.exe";
    assert IsLower("c:") && IsLower(System32Dir) && IsLower("whoami.exe");
    LowerOfLower(path);
    assert path[2..2 + |System32Dir|] == System32Dir;
    assert OccursAt(path, System32Dir, 2);
    LowerOfLower("whoami.exe");
    WhoamiNotCritical();
  }

  /** `SysWOW64`, the 32-bit system directory, does not contain `\windows\system32\`. */
  lemma SysWow64NotSystem32()
    ensures !IsSubstring("c:\\windows\\syswow64\\whoami.exe", System32Dir)
  {
    var path := "c:\\windows\\syswow64\\whoami.exe";
    assert forall k :: 0 <= k < |path| ==> path[k] != '3';
    assert System32Dir[15] == '3';
  }

  /** So a program under `SysWOW64` is a `User` process. */
  lemma SysWow64ProgramIsUser(c: Categorizer)
    requires c.systemWhitelist == CriticalNames()
    ensures c.Categorize("whoami.exe", 1234, Some("c:\\windows\\syswow64\\whoami.exe")) == User
  {
    LowerOfLower("c:\\windows\\syswow64\\whoami.exe");
    SysWow64NotSystem32();
    LowerOfLower("whoami.exe");
    WhoamiNotCritical();
  }
}
