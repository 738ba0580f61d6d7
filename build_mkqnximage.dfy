/** The translation of a decoded `.config` map into the `mkqnximage` command
    line (`main` of `build_mkqnximage.py`, from `cmd = [mkqnx_cmd]` to the last
    append). Each option is a structured `Arg` until the final rendering step,
    so that the rules can speak about options rather than text.

    The specification is one function per comment heading of the source
    (`PrologueArgs`, `BehaviorArgs`, ...), written with the rule kinds the
    translation uses (first-match choice groups, flags, negated flags, valued
    fields, counted fields, packages); the step-by-step construction is
    `BuildCommand` and the `Emit*` methods it calls, which mirror the source's
    `if`/`elif` chains, local reassignments and `for` loops. */
module BuildMkqnximage {
  import opened Wrappers
  import opened Strings
  import opened ConfigParser
  import GenDefaultConfig

  // ---------------------------------------------------------------------------
  // Options and their rendering
  // ---------------------------------------------------------------------------

  /** Every option `main` can emit. `Size` and `Package` carry the symbol suffix
      the source loops over (`"BOOT_SIZE"`, `"PERL"`, ...). */
  datatype Opt =
    | Force | Arch
    | Verbose | AssumedIp | Clean | Noprompt
    | Type | Cpu | Proc | Ram
    | PartSizes | Size(sizeName: string)
    | Union | Qcfs | Qtd | Qtsafefs | SecureData | Pathtrust | Zoneinfo | Tz
    | Users | SshIdent | SshdPregen
    | Ip | Hostname | Macaddr | TimeServers
    | Repos | ExtraDirs
    | Aslr | SecureProcfs | Certicom | Tcg | Cryptodev | Policy | Secpol | Qfim
    | Package(packageName: string)
    | IoSockDiag | Sanitizers | QhConfig
    | Usb | Graphics | Nfs
    | Root | Ablelock | Slm

  /** The option's spelling after `--`. Counted fields are spelled
      `k.lower().replace('_', '-')` and packages `pkg.lower()`, as in the source. */
  function OptName(o: Opt): string
  {
    match o
    case Force => "force"
    case Arch => "arch"
    case Verbose => "verbose"
    case AssumedIp => "assumed-ip"
    case Clean => "clean"
    case Noprompt => "noprompt"
    case Type => "type"
    case Cpu => "cpu"
    case Proc => "proc"
    case Ram => "ram"
    case PartSizes => "part-sizes"
    case Size(k) => ReplaceChar(Lower(k), '_', '-')
    case Union => "union"
    case Qcfs => "qcfs"
    case Qtd => "qtd"
    case Qtsafefs => "qtsafefs"
    case SecureData => "secure-data"
    case Pathtrust => "pathtrust"
    case Zoneinfo => "zoneinfo"
    case Tz => "tz"
    case Users => "users"
    case SshIdent => "ssh-ident"
    case SshdPregen => "sshd-pregen"
    case Ip => "ip"
    case Hostname => "hostname"
    case Macaddr => "macaddr"
    case TimeServers => "time-servers"
    case Repos => "repos"
    case ExtraDirs => "extra-dirs"
    case Aslr => "aslr"
    case SecureProcfs => "secure-procfs"
    case Certicom => "certicom"
    case Tcg => "tcg"
    case Cryptodev => "cryptodev"
    case Policy => "policy"
    case Secpol => "secpol"
    case Qfim => "qfim"
    case Package(k) => Lower(k)
    case IoSockDiag => "io-sock-diag"
    case Sanitizers => "sanitizers"
    case QhConfig => "qh_config"
    case Usb => "usb"
    case Graphics => "graphics"
    case Nfs => "nfs"
    case Root => "root"
    case Ablelock => "ablelock"
    case Slm => "slm"
  }

  /** One command-line option: `--name` or `--name=value`. */
  datatype Arg = Arg(opt: Opt, value: Option<string>)

  function Render(a: Arg): string
  {
    "--" + OptName(a.opt) + (if a.value.Some? then "=" + a.value.value else "")
  }

  /** The rendered options, one string each, in order. */
  function Texts(args: seq<Arg>): (r: seq<string>)
    ensures |r| == |args|
    ensures forall i :: 0 <= i < |args| ==> r[i] == Render(args[i])
  {
    if |args| == 0 then [] else Texts(args[..|args| - 1]) + [Render(args[|args| - 1])]
  }

  // ---------------------------------------------------------------------------
  // Rule kinds
  // ---------------------------------------------------------------------------

  /** `a` when the condition holds, nothing otherwise: one guarded `append`. */
  function When(c: bool, a: Arg): (r: seq<Arg>)
    ensures forall b :: b in r ==> b == a
  {
    if c then [a] else []
  }

  /** `if bool_of(cfg, k): cmd.append(a)`. */
  function IfTrue(cfg: Config, k: string, a: Arg): (r: seq<Arg>)
    ensures forall b :: b in r ==> b == a
  {
    When(BoolOf(cfg, k), a)
  }

  /** `if not bool_of(cfg, k): cmd.append("--<o>=no")`. */
  function IfNotTrue(cfg: Config, k: string, o: Opt): (r: seq<Arg>)
    ensures forall b :: b in r ==> b == Arg(o, Some("no"))
  {
    When(!BoolOf(cfg, k), Arg(o, Some("no")))
  }

  /** A string field: `v = str_of(cfg, k, fallback)`, emitted when `v` is
      non-empty and differs from the fallback. */
  function Valued(cfg: Config, k: string, fallback: string, o: Opt): (r: seq<Arg>)
    ensures forall b :: b in r ==> b.opt == o
  {
    var v := StrOf(cfg, k, fallback);
    When(v != "" && v != fallback, Arg(o, Some(v)))
  }

  /** A string field with an empty fallback: `v = str_of(cfg, k, "")`,
      emitted when `v` is non-empty. */
  function NonEmpty(cfg: Config, k: string, o: Opt): (r: seq<Arg>)
    ensures forall b :: b in r ==> b.opt == o
  {
    var v := StrOf(cfg, k, "");
    When(v != "", Arg(o, Some(v)))
  }

  /** A first-match-wins choice group: the mode of the first member whose
      symbol is true, or the baseline when none is. */
  function FirstMatch(cfg: Config, members: seq<(string, string)>, baseline: string): string
  {
    if |members| == 0 then baseline
    else if BoolOf(cfg, members[0].0) then members[0].1
    else FirstMatch(cfg, members[1..], baseline)
  }

  lemma {:induction false} FirstMatchWins(cfg: Config, members: seq<(string, string)>, baseline: string, i: nat)
    requires i < |members| && BoolOf(cfg, members[i].0)
    requires forall j :: 0 <= j < i ==> !BoolOf(cfg, members[j].0)
    ensures FirstMatch(cfg, members, baseline) == members[i].1
  {
    if i > 0 {
      assert !BoolOf(cfg, members[0].0);
      FirstMatchWins(cfg, members[1..], baseline, i - 1);
    }
  }

  lemma {:induction false} FirstMatchBaseline(cfg: Config, members: seq<(string, string)>, baseline: string)
    requires forall j :: 0 <= j < |members| ==> !BoolOf(cfg, members[j].0)
    ensures FirstMatch(cfg, members, baseline) == baseline
  {
    if |members| > 0 {
      assert !BoolOf(cfg, members[0].0);
      FirstMatchBaseline(cfg, members[1..], baseline);
    }
  }

  lemma FirstMatchOne(cfg: Config, a: (string, string), baseline: string)
    ensures FirstMatch(cfg, [a], baseline) == if BoolOf(cfg, a.0) then a.1 else baseline
  {
    assert [a][1..] == [];
  }

  lemma FirstMatchTwo(cfg: Config, a: (string, string), b: (string, string), baseline: string)
    ensures FirstMatch(cfg, [a, b], baseline) ==
      if BoolOf(cfg, a.0) then a.1 else if BoolOf(cfg, b.0) then b.1 else baseline
  {
    assert [a, b][1..] == [b];
    FirstMatchOne(cfg, b, baseline);
  }

  lemma FirstMatchThree(cfg: Config, a: (string, string), b: (string, string), c: (string, string), baseline: string)
    ensures FirstMatch(cfg, [a, b, c], baseline) ==
      if BoolOf(cfg, a.0) then a.1 else if BoolOf(cfg, b.0) then b.1 else if BoolOf(cfg, c.0) then c.1 else baseline
  {
    assert [a, b, c][1..] == [b, c];
    FirstMatchTwo(cfg, b, c, baseline);
  }

  /** A choice group whose option is emitted only when the mode is not the baseline. */
  function Choice(cfg: Config, members: seq<(string, string)>, baseline: string, o: Opt): (r: seq<Arg>)
    ensures forall b :: b in r ==> b.opt == o
  {
    var m := FirstMatch(cfg, members, baseline);
    When(m != baseline, Arg(o, Some(m)))
  }

  function ArchModes(): seq<(string, string)> { [("MKQNX_ARCH_AARCH64LE", "aarch64le")] }

  function TypeModes(): seq<(string, string)>
  {
    [("MKQNX_TYPE_VMWARE", "vmware"), ("MKQNX_TYPE_VBOX", "vbox"), ("MKQNX_TYPE_QVM", "qvm")]
  }

  function QcfsModes(): seq<(string, string)>
  {
    [("MKQNX_QCFS_LZ4HC", "lz4hc"), ("MKQNX_QCFS_ZSTD", "zstd"), ("MKQNX_QCFS_YES", "yes")]
  }

  function SecureDataModes(): seq<(string, string)>
  {
    [("MKQNX_SECURE_DATA_NOSUID", "nosuid"), ("MKQNX_SECURE_DATA_NOEXEC", "noexec")]
  }

  function TcgModes(): seq<(string, string)>
  {
    [("MKQNX_TCG_CMDLINE", "cmdline"), ("MKQNX_TCG_YES", "yes")]
  }

  function SecpolModes(): seq<(string, string)>
  {
    [("MKQNX_SECPOL_DEVELOP", "develop"), ("MKQNX_SECPOL_OPEN", "open"), ("MKQNX_SECPOL_SECURE", "secure")]
  }

  /** The counted fields and the packages the two `for` loops run over. */
  function SizeNames(): seq<string> { ["BOOT_SIZE", "SYS_SIZE", "SYS_INODES", "DATA_SIZE", "DATA_INODES"] }

  function PackageNames(): seq<string> { ["TOMCRYPT", "PERL", "PKCS11", "PYTHON", "QAUDIT", "VALGRIND"] }

  // ---------------------------------------------------------------------------
  // The specification, heading by heading
  // ---------------------------------------------------------------------------

  function PrologueArgs(cfg: Config): (r: seq<Arg>)
    ensures forall a :: a in r ==> a.opt in {Force, Arch}
  {
    [Arg(Force, None), Arg(Arch, Some(FirstMatch(cfg, ArchModes(), "x86_64")))]
  }

  function BehaviorArgs(cfg: Config): (r: seq<Arg>)
    ensures forall a :: a in r ==> a.opt in {Verbose, AssumedIp, Clean, Noprompt}
  {
    IfTrue(cfg, "MKQNX_VERBOSE", Arg(Verbose, Some("yes")))
    + NonEmpty(cfg, "MKQNX_ASSUMED_IP", AssumedIp)
    + IfTrue(cfg, "MKQNX_CLEAN", Arg(Clean, None))
    + IfTrue(cfg, "MKQNX_NOPROMPT", Arg(Noprompt, None))
  }

  /** The CPU count after the range check: out-of-range counts become 2. */
  function CpuCount(n: int): (c: int)
    ensures 1 <= c <= 4
    ensures c == n <==> 1 <= n <= 4
  {
    if 1 <= n <= 4 then n else 2
  }

  /** The RAM size after the format check: malformed sizes become `1G`. Bare
      numbers are kept as they are. */
  function RamSize(v: string): (r: string)
    ensures GenDefaultConfig.RamFormat(r)
    ensures r == v <==> GenDefaultConfig.RamFormat(v)
  {
    GenDefaultConfig.OneGig();
    if GenDefaultConfig.RamFormat(v) then v else "1G"
  }

  /** Runtime options. Fails, naming the key, when `MKQNX_CPU` is not an integer. */
  function RuntimeArgs(cfg: Config): (r: Result<seq<Arg>, string>)
    ensures r.Failure? <==> IntOf(cfg, "MKQNX_CPU", 2).Failure?
    ensures r.Success? ==> forall a :: a in r.value ==> a.opt in {Type, Cpu, Proc, Ram}
  {
    match IntOf(cfg, "MKQNX_CPU", 2)
    case Failure(e) => Failure(e)
    case Success(n) =>
      var cpu := CpuCount(n);
      var ram := RamSize(StrOf(cfg, "MKQNX_RAM", "1G"));
      Success(
        Choice(cfg, TypeModes(), "qemu", Type)
        + When(cpu != 2, Arg(Cpu, Some(IntToString(cpu))))
        + NonEmpty(cfg, "MKQNX_PROC", Proc)
        + When(ram != "1G", Arg(Ram, Some(ram))))
  }

  /** The counted fields, in loop order; the first non-integer value fails. */
  function SizeArgs(cfg: Config, names: seq<string>): (r: Result<seq<Arg>, string>)
    ensures r.Success? ==> forall a :: a in r.value ==> a.opt.Size? && a.opt.sizeName in names
  {
    if |names| == 0 then Success([])
    else
      match SizeArgs(cfg, names[..|names| - 1])
      case Failure(e) => Failure(e)
      case Success(init) =>
        var k := names[|names| - 1];
        match IntOf(cfg, "MKQNX_" + k, 0)
        case Failure(e) => Failure(e)
        case Success(n) => Success(init + When(n > 0, Arg(Size(k), Some(IntToString(n)))))
  }

  function PartitionArgs(cfg: Config): (r: Result<seq<Arg>, string>)
    ensures r.Success? ==> forall a :: a in r.value ==> a.opt == PartSizes || a.opt.Size?
  {
    var ps := StrOf(cfg, "MKQNX_PART_SIZES", "full");
    match SizeArgs(cfg, SizeNames())
    case Failure(e) => Failure(e)
    case Success(sizes) => Success(When(ps != "full", Arg(PartSizes, Some(ps))) + sizes)
  }

  /** `--zoneinfo`: `yes` when chosen, else the stored path when the key is
      present; emitted when non-empty and not `no`. */
  function ZoneinfoValue(cfg: Config): string
  {
    if BoolOf(cfg, "MKQNX_ZONEINFO_YES") then "yes"
    else if "MKQNX_ZONEINFO_PATH" in cfg then StrOf(cfg, "MKQNX_ZONEINFO_PATH", "")
    else ""
  }

  function FsArgs(cfg: Config): (r: seq<Arg>)
    ensures forall a :: a in r ==> a.opt in {Union, Qcfs, Qtd, Qtsafefs, SecureData, Pathtrust, Zoneinfo, Tz}
  {
    var z := ZoneinfoValue(cfg);
    IfNotTrue(cfg, "MKQNX_UNION", Union)
    + Choice(cfg, QcfsModes(), "no", Qcfs)
    + IfTrue(cfg, "MKQNX_QTD", Arg(Qtd, Some("yes")))
    + IfTrue(cfg, "MKQNX_QTSAFEFS", Arg(Qtsafefs, Some("yes")))
    + Choice(cfg, SecureDataModes(), "no", SecureData)
    + IfTrue(cfg, "MKQNX_PATHTRUST", Arg(Pathtrust, Some("yes")))
    + When(z != "" && z != "no", Arg(Zoneinfo, Some(z)))
    + Valued(cfg, "MKQNX_TZ", "UTC", Tz)
  }

  function UsersArgs(cfg: Config): (r: seq<Arg>)
    ensures forall a :: a in r ==> a.opt in {Users, SshIdent, SshdPregen}
  {
    NonEmpty(cfg, "MKQNX_USERS", Users)
    + Valued(cfg, "MKQNX_SSH_IDENT", "prompt", SshIdent)
    + When("MKQNX_SSHD_PREGEN" in cfg,
           Arg(SshdPregen, Some(if BoolOf(cfg, "MKQNX_SSHD_PREGEN") then "yes" else "no")))
  }

  function NetworkArgs(cfg: Config): (r: seq<Arg>)
    ensures forall a :: a in r ==> a.opt in {Ip, Hostname, Macaddr, TimeServers}
  {
    Valued(cfg, "MKQNX_IP", "dhcp", Ip)
    + NonEmpty(cfg, "MKQNX_HOSTNAME", Hostname)
    + NonEmpty(cfg, "MKQNX_MACADDR", Macaddr)
    + Valued(cfg, "MKQNX_TIME_SERVERS", "pool.ntp.org", TimeServers)
  }

  function ReposArgs(cfg: Config): (r: seq<Arg>)
    ensures forall a :: a in r ==> a.opt in {Repos, ExtraDirs}
  {
    NonEmpty(cfg, "MKQNX_REPOS", Repos) + NonEmpty(cfg, "MKQNX_EXTRA_DIRS", ExtraDirs)
  }

  function SecurityArgs(cfg: Config): (r: seq<Arg>)
    ensures forall a :: a in r ==> a.opt in {Aslr, SecureProcfs, Certicom, Tcg, Cryptodev, Policy, Secpol, Qfim}
  {
    IfNotTrue(cfg, "MKQNX_ASLR", Aslr)
    + IfTrue(cfg, "MKQNX_SECURE_PROCFS", Arg(SecureProcfs, Some("yes")))
    + IfTrue(cfg, "MKQNX_CERTICOM", Arg(Certicom, Some("yes")))
    + Choice(cfg, TcgModes(), "no", Tcg)
    + IfTrue(cfg, "MKQNX_CRYPTODEV", Arg(Cryptodev, Some("yes")))
    + Valued(cfg, "MKQNX_POLICY", "none", Policy)
    + Choice(cfg, SecpolModes(), "no", Secpol)
    + IfTrue(cfg, "MKQNX_QFIM", Arg(Qfim, Some("yes")))
  }

  /** The package flags, in loop order. */
  function PackageArgs(cfg: Config, names: seq<string>): (r: seq<Arg>)
    ensures forall a :: a in r ==> a.opt.Package? && a.opt.packageName in names
  {
    if |names| == 0 then []
    else
      var k := names[|names| - 1];
      PackageArgs(cfg, names[..|names| - 1]) + IfTrue(cfg, "MKQNX_" + k, Arg(Package(k), Some("yes")))
  }

  function DiagnosticArgs(cfg: Config): (r: seq<Arg>)
    ensures forall a :: a in r ==> a.opt in {IoSockDiag, Sanitizers, QhConfig}
  {
    IfTrue(cfg, "MKQNX_IO_SOCK_DIAG", Arg(IoSockDiag, Some("yes")))
    + IfTrue(cfg, "MKQNX_SANITIZERS", Arg(Sanitizers, Some("yes")))
    + Valued(cfg, "MKQNX_QH_CONFIG", "no", QhConfig)
  }

  function HardwareArgs(cfg: Config): (r: seq<Arg>)
    ensures forall a :: a in r ==> a.opt in {Usb, Graphics, Nfs}
  {
    IfNotTrue(cfg, "MKQNX_USB", Usb)
    + IfTrue(cfg, "MKQNX_GRAPHICS", Arg(Graphics, Some("yes")))
    + Valued(cfg, "MKQNX_NFS", "no", Nfs)
  }

  function SystemArgs(cfg: Config): (r: seq<Arg>)
    ensures forall a :: a in r ==> a.opt in {Root, Ablelock, Slm}
  {
    IfTrue(cfg, "MKQNX_ROOT", Arg(Root, Some("yes")))
    + IfNotTrue(cfg, "MKQNX_ABLELOCK", Ablelock)
    + IfTrue(cfg, "MKQNX_SLM", Arg(Slm, Some("yes")))
  }

  /** All options in command order, or the key whose value `int()` rejects. */
  function Args(cfg: Config): (r: Result<seq<Arg>, string>)
    ensures r.Failure? <==> RuntimeArgs(cfg).Failure? || PartitionArgs(cfg).Failure?
  {
    match RuntimeArgs(cfg)
    case Failure(e) => Failure(e)
    case Success(rt) =>
      match PartitionArgs(cfg)
      case Failure(e) => Failure(e)
      case Success(pt) =>
        Success(PrologueArgs(cfg) + BehaviorArgs(cfg) + rt + pt + FsArgs(cfg) + UsersArgs(cfg)
                + NetworkArgs(cfg) + ReposArgs(cfg) + SecurityArgs(cfg) + PackageArgs(cfg, PackageNames())
                + DiagnosticArgs(cfg) + HardwareArgs(cfg) + SystemArgs(cfg))
  }

  /** The argument vector handed to `subprocess.check_call`. */
  function Command(exe: string, cfg: Config): (r: Result<seq<string>, string>)
    ensures r.Success? <==> Args(cfg).Success?
    ensures r.Success? ==> |r.value| == |Args(cfg).value| + 1 && r.value[0] == exe
  {
    match Args(cfg)
    case Failure(e) => Failure(e)
    case Success(args) => Success([exe] + Texts(args))
  }

  // ---------------------------------------------------------------------------
  // The construction, step by step
  // ---------------------------------------------------------------------------

  /** One guarded `cmd.append(a)`. */
  method AppendIf(out: seq<Arg>, c: bool, a: Arg) returns (r: seq<Arg>)
    ensures r == out + When(c, a)
    ensures out == [] ==> r == When(c, a)
  {
    r := out;
    if c {
      r := r + [a];
    }
  }

  /** `if bool_of(cfg, k): cmd.append(a)`. */
  method AppendIfTrue(out: seq<Arg>, cfg: Config, k: string, a: Arg) returns (r: seq<Arg>)
    ensures r == out + IfTrue(cfg, k, a)
    ensures out == [] ==> r == IfTrue(cfg, k, a)
  {
    r := out;
    if BoolOf(cfg, k) {
      r := r + [a];
    }
  }

  /** `if not bool_of(cfg, k): cmd.append("--<o>=no")`. */
  method AppendIfNotTrue(out: seq<Arg>, cfg: Config, k: string, o: Opt) returns (r: seq<Arg>)
    ensures r == out + IfNotTrue(cfg, k, o)
    ensures out == [] ==> r == IfNotTrue(cfg, k, o)
  {
    r := out;
    if !BoolOf(cfg, k) {
      r := r + [Arg(o, Some("no"))];
    }
  }

  /** `v = str_of(cfg, k, ""); if v: cmd.append(f"--<o>={v}")`. */
  method AppendNonEmpty(out: seq<Arg>, cfg: Config, k: string, o: Opt) returns (r: seq<Arg>)
    ensures r == out + NonEmpty(cfg, k, o)
    ensures out == [] ==> r == NonEmpty(cfg, k, o)
  {
    r := out;
    var v := StrOf(cfg, k, "");
    if v != "" {
      r := r + [Arg(o, Some(v))];
    }
  }

  /** `v = str_of(cfg, k, fallback); if v and v != fallback: cmd.append(...)`. */
  method AppendValued(out: seq<Arg>, cfg: Config, k: string, fallback: string, o: Opt) returns (r: seq<Arg>)
    ensures r == out + Valued(cfg, k, fallback, o)
    ensures out == [] ==> r == Valued(cfg, k, fallback, o)
  {
    r := out;
    var v := StrOf(cfg, k, fallback);
    if v != "" && v != fallback {
      r := r + [Arg(o, Some(v))];
    }
  }

  /** The `typ` if/elif chain of the source. */
  method TypeMode(cfg: Config) returns (mode: string)
    ensures mode == FirstMatch(cfg, TypeModes(), "qemu")
  {
    FirstMatchThree(cfg, TypeModes()[0], TypeModes()[1], TypeModes()[2], "qemu");
    mode := "qemu";
    if BoolOf(cfg, "MKQNX_TYPE_VMWARE") {
      mode := "vmware";
    } else if BoolOf(cfg, "MKQNX_TYPE_VBOX") {
      mode := "vbox";
    } else if BoolOf(cfg, "MKQNX_TYPE_QVM") {
      mode := "qvm";
    }
  }

  /** The `qcfs` if/elif chain of the source. */
  method QcfsMode(cfg: Config) returns (mode: string)
    ensures mode == FirstMatch(cfg, QcfsModes(), "no")
  {
    FirstMatchThree(cfg, QcfsModes()[0], QcfsModes()[1], QcfsModes()[2], "no");
    mode := "no";
    if BoolOf(cfg, "MKQNX_QCFS_LZ4HC") {
      mode := "lz4hc";
    } else if BoolOf(cfg, "MKQNX_QCFS_ZSTD") {
      mode := "zstd";
    } else if BoolOf(cfg, "MKQNX_QCFS_YES") {
      mode := "yes";
    }
  }

  /** The `secure_data` if/elif chain of the source. */
  method SecureDataMode(cfg: Config) returns (mode: string)
    ensures mode == FirstMatch(cfg, SecureDataModes(), "no")
  {
    FirstMatchTwo(cfg, SecureDataModes()[0], SecureDataModes()[1], "no");
    mode := "no";
    if BoolOf(cfg, "MKQNX_SECURE_DATA_NOSUID") {
      mode := "nosuid";
    } else if BoolOf(cfg, "MKQNX_SECURE_DATA_NOEXEC") {
      mode := "noexec";
    }
  }

  /** The `tcg` if/elif chain of the source. */
  method TcgMode(cfg: Config) returns (mode: string)
    ensures mode == FirstMatch(cfg, TcgModes(), "no")
  {
    FirstMatchTwo(cfg, TcgModes()[0], TcgModes()[1], "no");
    mode := "no";
    if BoolOf(cfg, "MKQNX_TCG_CMDLINE") {
      mode := "cmdline";
    } else if BoolOf(cfg, "MKQNX_TCG_YES") {
      mode := "yes";
    }
  }

  /** The `secpol` if/elif chain of the source. */
  method SecpolMode(cfg: Config) returns (mode: string)
    ensures mode == FirstMatch(cfg, SecpolModes(), "no")
  {
    FirstMatchThree(cfg, SecpolModes()[0], SecpolModes()[1], SecpolModes()[2], "no");
    mode := "no";
    if BoolOf(cfg, "MKQNX_SECPOL_DEVELOP") {
      mode := "develop";
    } else if BoolOf(cfg, "MKQNX_SECPOL_OPEN") {
      mode := "open";
    } else if BoolOf(cfg, "MKQNX_SECPOL_SECURE") {
      mode := "secure";
    }
  }

  /** The `zoneinfo` if/elif chain of the source. */
  method ZoneinfoSetting(cfg: Config) returns (zoneinfo: string)
    ensures zoneinfo == ZoneinfoValue(cfg)
  {
    zoneinfo := "";
    if BoolOf(cfg, "MKQNX_ZONEINFO_YES") {
      zoneinfo := "yes";
    } else if "MKQNX_ZONEINFO_PATH" in cfg {
      zoneinfo := StrOf(cfg, "MKQNX_ZONEINFO_PATH", "");
    }
  }

  /** `--force`, then `--arch`, which is always passed. */
  method EmitPrologue(cfg: Config) returns (out: seq<Arg>)
    ensures out == PrologueArgs(cfg)
  {
    FirstMatchOne(cfg, ArchModes()[0], "x86_64");
    out := [Arg(Force, None)];
    var arch := "x86_64";
    if BoolOf(cfg, "MKQNX_ARCH_AARCH64LE") {
      arch := "aarch64le";
    }
    out := out + [Arg(Arch, Some(arch))];
  }

  method EmitBehavior(cfg: Config) returns (out: seq<Arg>)
    ensures out == BehaviorArgs(cfg)
  {
    out := AppendIfTrue([], cfg, "MKQNX_VERBOSE", Arg(Verbose, Some("yes")));
    out := AppendNonEmpty(out, cfg, "MKQNX_ASSUMED_IP", AssumedIp);
    out := AppendIfTrue(out, cfg, "MKQNX_CLEAN", Arg(Clean, None));
    out := AppendIfTrue(out, cfg, "MKQNX_NOPROMPT", Arg(Noprompt, None));
  }

  /** `--type`, `--cpu`, `--proc`, `--ram`; `int_of` on `MKQNX_CPU` may fail. */
  method EmitRuntime(cfg: Config) returns (r: Result<seq<Arg>, string>)
    ensures r == RuntimeArgs(cfg)
  {
    var typ := TypeMode(cfg);
    var out := AppendIf([], typ != "qemu", Arg(Type, Some(typ)));
    var parsed := IntOf(cfg, "MKQNX_CPU", 2);
    if parsed.Failure? {
      return Failure(parsed.error);
    }
    var cpu := parsed.value;
    if !(1 <= cpu <= 4) {
      cpu := 2;
    }
    assert cpu == CpuCount(parsed.value);
    out := AppendIf(out, cpu != 2, Arg(Cpu, Some(IntToString(cpu))));
    out := AppendNonEmpty(out, cfg, "MKQNX_PROC", Proc);
    var ram := StrOf(cfg, "MKQNX_RAM", "1G");
    if !GenDefaultConfig.RamFormat(ram) {
      ram := "1G";
    }
    assert ram == RamSize(StrOf(cfg, "MKQNX_RAM", "1G"));
    out := AppendIf(out, ram != "1G", Arg(Ram, Some(ram)));
    r := Success(out);
  }

  /** Once a prefix of the counted fields fails, the whole list fails the same way. */
  lemma {:induction false} SizeArgsFailureStays(cfg: Config, names: seq<string>, i: nat)
    requires i <= |names| && SizeArgs(cfg, names[..i]).Failure?
    ensures SizeArgs(cfg, names) == SizeArgs(cfg, names[..i])
    decreases |names|
  {
    if i < |names| {
      var init := names[..|names| - 1];
      assert init[..i] == names[..i];
      SizeArgsFailureStays(cfg, init, i);
    } else {
      assert names[..i] == names;
    }
  }

  lemma SizeArgsStep(cfg: Config, names: seq<string>, i: nat)
    requires i < |names|
    ensures SizeArgs(cfg, names[..i + 1]) ==
      match SizeArgs(cfg, names[..i])
      case Failure(e) => Failure(e)
      case Success(init) =>
        match IntOf(cfg, "MKQNX_" + names[i], 0)
        case Failure(e) => Failure(e)
        case Success(n) => Success(init + When(n > 0, Arg(Size(names[i]), Some(IntToString(n)))))
  {
    assert names[..i + 1][..i] == names[..i];
  }

  /** The loop over the counted fields: `int_of(cfg, f"MKQNX_{k}", 0)` for each
      name, emitted when positive. */
  method EmitSizes(cfg: Config, names: seq<string>) returns (r: Result<seq<Arg>, string>)
    ensures r == SizeArgs(cfg, names)
  {
    var out: seq<Arg> := [];
    for i := 0 to |names|
      invariant SizeArgs(cfg, names[..i]) == Success(out)
    {
      var k := names[i];
      SizeArgsStep(cfg, names, i);
      var val := IntOf(cfg, "MKQNX_" + k, 0);
      if val.Failure? {
        SizeArgsFailureStays(cfg, names, i + 1);
        return Failure(val.error);
      }
      out := AppendIf(out, val.value > 0, Arg(Size(k), Some(IntToString(val.value))));
    }
    assert names[..|names|] == names;
    r := Success(out);
  }

  /** `--part-sizes`, then the counted fields. */
  method EmitPartitioning(cfg: Config) returns (r: Result<seq<Arg>, string>)
    ensures r == PartitionArgs(cfg)
  {
    var ps := StrOf(cfg, "MKQNX_PART_SIZES", "full");
    var out := AppendIf([], ps != "full", Arg(PartSizes, Some(ps)));
    var sizes := EmitSizes(cfg, SizeNames());
    if sizes.Failure? {
      return Failure(sizes.error);
    }
    r := Success(out + sizes.value);
  }

  method EmitFs(cfg: Config) returns (out: seq<Arg>)
    ensures out == FsArgs(cfg)
  {
    out := AppendIfNotTrue([], cfg, "MKQNX_UNION", Union);
    var qcfs := QcfsMode(cfg);
    out := AppendIf(out, qcfs != "no", Arg(Qcfs, Some(qcfs)));
    out := AppendIfTrue(out, cfg, "MKQNX_QTD", Arg(Qtd, Some("yes")));
    out := AppendIfTrue(out, cfg, "MKQNX_QTSAFEFS", Arg(Qtsafefs, Some("yes")));
    var secureData := SecureDataMode(cfg);
    out := AppendIf(out, secureData != "no", Arg(SecureData, Some(secureData)));
    out := AppendIfTrue(out, cfg, "MKQNX_PATHTRUST", Arg(Pathtrust, Some("yes")));
    var zoneinfo := ZoneinfoSetting(cfg);
    out := AppendIf(out, zoneinfo != "" && zoneinfo != "no", Arg(Zoneinfo, Some(zoneinfo)));
    out := AppendValued(out, cfg, "MKQNX_TZ", "UTC", Tz);
  }

  method EmitUsers(cfg: Config) returns (out: seq<Arg>)
    ensures out == UsersArgs(cfg)
  {
    out := AppendNonEmpty([], cfg, "MKQNX_USERS", Users);
    out := AppendValued(out, cfg, "MKQNX_SSH_IDENT", "prompt", SshIdent);
    if "MKQNX_SSHD_PREGEN" in cfg {
      if BoolOf(cfg, "MKQNX_SSHD_PREGEN") {
        out := out + [Arg(SshdPregen, Some("yes"))];
      } else {
        out := out + [Arg(SshdPregen, Some("no"))];
      }
    }
  }

  method EmitNetwork(cfg: Config) returns (out: seq<Arg>)
    ensures out == NetworkArgs(cfg)
  {
    out := AppendValued([], cfg, "MKQNX_IP", "dhcp", Ip);
    out := AppendNonEmpty(out, cfg, "MKQNX_HOSTNAME", Hostname);
    out := AppendNonEmpty(out, cfg, "MKQNX_MACADDR", Macaddr);
    out := AppendValued(out, cfg, "MKQNX_TIME_SERVERS", "pool.ntp.org", TimeServers);
  }

  method EmitRepos(cfg: Config) returns (out: seq<Arg>)
    ensures out == ReposArgs(cfg)
  {
    out := AppendNonEmpty([], cfg, "MKQNX_REPOS", Repos);
    out := AppendNonEmpty(out, cfg, "MKQNX_EXTRA_DIRS", ExtraDirs);
  }

  method EmitSecurity(cfg: Config) returns (out: seq<Arg>)
    ensures out == SecurityArgs(cfg)
  {
    out := AppendIfNotTrue([], cfg, "MKQNX_ASLR", Aslr);
    out := AppendIfTrue(out, cfg, "MKQNX_SECURE_PROCFS", Arg(SecureProcfs, Some("yes")));
    out := AppendIfTrue(out, cfg, "MKQNX_CERTICOM", Arg(Certicom, Some("yes")));
    var tcg := TcgMode(cfg);
    out := AppendIf(out, tcg != "no", Arg(Tcg, Some(tcg)));
    out := AppendIfTrue(out, cfg, "MKQNX_CRYPTODEV", Arg(Cryptodev, Some("yes")));
    out := AppendValued(out, cfg, "MKQNX_POLICY", "none", Policy);
    var secpol := SecpolMode(cfg);
    out := AppendIf(out, secpol != "no", Arg(Secpol, Some(secpol)));
    out := AppendIfTrue(out, cfg, "MKQNX_QFIM", Arg(Qfim, Some("yes")));
  }

  /** The loop over the package names. */
  method EmitPackages(cfg: Config, names: seq<string>) returns (out: seq<Arg>)
    ensures out == PackageArgs(cfg, names)
  {
    out := [];
    for i := 0 to |names|
      invariant out == PackageArgs(cfg, names[..i])
    {
      assert names[..i + 1][..i] == names[..i];
      var sym := "MKQNX_" + names[i];
      if BoolOf(cfg, sym) {
        out := out + [Arg(Package(names[i]), Some("yes"))];
      }
    }
    assert names[..|names|] == names;
  }

  method EmitDiagnostics(cfg: Config) returns (out: seq<Arg>)
    ensures out == DiagnosticArgs(cfg)
  {
    out := AppendIfTrue([], cfg, "MKQNX_IO_SOCK_DIAG", Arg(IoSockDiag, Some("yes")));
    out := AppendIfTrue(out, cfg, "MKQNX_SANITIZERS", Arg(Sanitizers, Some("yes")));
    out := AppendValued(out, cfg, "MKQNX_QH_CONFIG", "no", QhConfig);
  }

  method EmitHardware(cfg: Config) returns (out: seq<Arg>)
    ensures out == HardwareArgs(cfg)
  {
    out := AppendIfNotTrue([], cfg, "MKQNX_USB", Usb);
    out := AppendIfTrue(out, cfg, "MKQNX_GRAPHICS", Arg(Graphics, Some("yes")));
    out := AppendValued(out, cfg, "MKQNX_NFS", "no", Nfs);
  }

  method EmitSystem(cfg: Config) returns (out: seq<Arg>)
    ensures out == SystemArgs(cfg)
  {
    out := AppendIfTrue([], cfg, "MKQNX_ROOT", Arg(Root, Some("yes")));
    out := AppendIfNotTrue(out, cfg, "MKQNX_ABLELOCK", Ablelock);
    out := AppendIfTrue(out, cfg, "MKQNX_SLM", Arg(Slm, Some("yes")));
  }

  /** Renders each option after the executable path. */
  method RenderCommand(exe: string, args: seq<Arg>) returns (cmd: seq<string>)
    ensures cmd == [exe] + Texts(args)
  {
    cmd := [exe];
    for i := 0 to |args|
      invariant cmd == [exe] + Texts(args[..i])
    {
      assert args[..i + 1][..i] == args[..i];
      cmd := cmd + [Render(args[i])];
    }
    assert args[..|args|] == args;
  }

  /** The whole translation: the command vector, or the key whose value
      `int()` rejects. */
  method BuildCommand(exe: string, cfg: Config) returns (r: Result<seq<string>, string>)
    ensures r == Command(exe, cfg)
  {
    var prologue := EmitPrologue(cfg);
    var behavior := EmitBehavior(cfg);
    var runtime := EmitRuntime(cfg);
    if runtime.Failure? {
      return Failure(runtime.error);
    }
    var partitioning := EmitPartitioning(cfg);
    if partitioning.Failure? {
      return Failure(partitioning.error);
    }
    var fs := EmitFs(cfg);
    var users := EmitUsers(cfg);
    var network := EmitNetwork(cfg);
    var repos := EmitRepos(cfg);
    var security := EmitSecurity(cfg);
    var packages := EmitPackages(cfg, PackageNames());
    var diagnostics := EmitDiagnostics(cfg);
    var hardware := EmitHardware(cfg);
    var system := EmitSystem(cfg);
    var args := prologue + behavior + runtime.value + partitioning.value + fs + users
                + network + repos + security + packages + diagnostics + hardware + system;
    var cmd := RenderCommand(exe, args);
    r := Success(cmd);
  }

  // ---------------------------------------------------------------------------
  // Properties of the translation
  // ---------------------------------------------------------------------------

  /** The successful vector, heading by heading. */
  lemma ArgsSections(cfg: Config)
    requires Args(cfg).Success?
    ensures RuntimeArgs(cfg).Success? && PartitionArgs(cfg).Success?
    ensures Args(cfg).value ==
      PrologueArgs(cfg) + BehaviorArgs(cfg) + RuntimeArgs(cfg).value + PartitionArgs(cfg).value
      + FsArgs(cfg) + UsersArgs(cfg) + NetworkArgs(cfg) + ReposArgs(cfg) + SecurityArgs(cfg)
      + PackageArgs(cfg, PackageNames()) + DiagnosticArgs(cfg) + HardwareArgs(cfg) + SystemArgs(cfg)
  {
  }

  /** `--arch`: aarch64le when chosen, else x86_64. */
  lemma ArchPriority(cfg: Config)
    ensures FirstMatch(cfg, ArchModes(), "x86_64") ==
      if BoolOf(cfg, "MKQNX_ARCH_AARCH64LE") then "aarch64le"
      else "x86_64"
  {
    FirstMatchOne(cfg, ArchModes()[0], "x86_64");
  }

  /** `--type`: VMware, then VirtualBox, then QVM; QEMU when none is chosen. */
  lemma TypePriority(cfg: Config)
    ensures FirstMatch(cfg, TypeModes(), "qemu") ==
      if BoolOf(cfg, "MKQNX_TYPE_VMWARE") then "vmware"
      else if BoolOf(cfg, "MKQNX_TYPE_VBOX") then "vbox"
      else if BoolOf(cfg, "MKQNX_TYPE_QVM") then "qvm"
      else "qemu"
  {
    FirstMatchThree(cfg, TypeModes()[0], TypeModes()[1], TypeModes()[2], "qemu");
  }

  /** `--qcfs`: LZ4HC, then Zstandard, then plain, else none. */
  lemma QcfsPriority(cfg: Config)
    ensures FirstMatch(cfg, QcfsModes(), "no") ==
      if BoolOf(cfg, "MKQNX_QCFS_LZ4HC") then "lz4hc"
      else if BoolOf(cfg, "MKQNX_QCFS_ZSTD") then "zstd"
      else if BoolOf(cfg, "MKQNX_QCFS_YES") then "yes"
      else "no"
  {
    FirstMatchThree(cfg, QcfsModes()[0], QcfsModes()[1], QcfsModes()[2], "no");
  }

  /** `--secure-data`: nosuid before noexec, else none. */
  lemma SecureDataPriority(cfg: Config)
    ensures FirstMatch(cfg, SecureDataModes(), "no") ==
      if BoolOf(cfg, "MKQNX_SECURE_DATA_NOSUID") then "nosuid"
      else if BoolOf(cfg, "MKQNX_SECURE_DATA_NOEXEC") then "noexec"
      else "no"
  {
    FirstMatchTwo(cfg, SecureDataModes()[0], SecureDataModes()[1], "no");
  }

  /** `--tcg`: command-line mode before plain, else none. */
  lemma TcgPriority(cfg: Config)
    ensures FirstMatch(cfg, TcgModes(), "no") ==
      if BoolOf(cfg, "MKQNX_TCG_CMDLINE") then "cmdline"
      else if BoolOf(cfg, "MKQNX_TCG_YES") then "yes"
      else "no"
  {
    FirstMatchTwo(cfg, TcgModes()[0], TcgModes()[1], "no");
  }

  /** `--secpol`: develop, then open, then secure, else none. */
  lemma SecpolPriority(cfg: Config)
    ensures FirstMatch(cfg, SecpolModes(), "no") ==
      if BoolOf(cfg, "MKQNX_SECPOL_DEVELOP") then "develop"
      else if BoolOf(cfg, "MKQNX_SECPOL_OPEN") then "open"
      else if BoolOf(cfg, "MKQNX_SECPOL_SECURE") then "secure"
      else "no"
  {
    FirstMatchThree(cfg, SecpolModes()[0], SecpolModes()[1], SecpolModes()[2], "no");
  }

  // What each rule kind emits, for an option of its own.

  lemma InIfTrue(cfg: Config, k: string, a: Arg, b: Arg)
    ensures b in IfTrue(cfg, k, a) <==> BoolOf(cfg, k) && b == a
  {
  }

  lemma InIfNotTrue(cfg: Config, k: string, o: Opt, v: Option<string>)
    ensures Arg(o, v) in IfNotTrue(cfg, k, o) <==> !BoolOf(cfg, k) && v == Some("no")
  {
  }

  lemma InNonEmpty(cfg: Config, k: string, o: Opt, v: Option<string>)
    ensures Arg(o, v) in NonEmpty(cfg, k, o) <==> StrOf(cfg, k, "") != "" && v == Some(StrOf(cfg, k, ""))
  {
  }

  lemma InValued(cfg: Config, k: string, fallback: string, o: Opt, v: Option<string>)
    ensures Arg(o, v) in Valued(cfg, k, fallback, o) <==>
      var s := StrOf(cfg, k, fallback); s != "" && s != fallback && v == Some(s)
  {
  }

  lemma InChoice(cfg: Config, members: seq<(string, string)>, baseline: string, o: Opt, v: Option<string>)
    ensures Arg(o, v) in Choice(cfg, members, baseline, o) <==>
      var m := FirstMatch(cfg, members, baseline); m != baseline && v == Some(m)
  {
  }

  // Each option, in the heading that emits it: the option is present with value
  // `v` exactly when the source's condition for it holds and `v` is what the
  // source appends. Every heading's own `ensures` says that no other heading
  // emits these options, so with `ArgsSections` each statement holds of the
  // whole vector.

  lemma ForceInPrologue(cfg: Config, v: Option<string>)
    ensures Arg(Force, v) in PrologueArgs(cfg) <==>
      v == None
  {
  }

  lemma ArchInPrologue(cfg: Config, v: Option<string>)
    ensures Arg(Arch, v) in PrologueArgs(cfg) <==>
      v == Some(if BoolOf(cfg, "MKQNX_ARCH_AARCH64LE") then "aarch64le" else "x86_64")
  {
    ArchPriority(cfg);
  }

  lemma VerboseInBehavior(cfg: Config, v: Option<string>)
    ensures Arg(Verbose, v) in BehaviorArgs(cfg) <==>
      BoolOf(cfg, "MKQNX_VERBOSE") && v == Some("yes")
  {
    InIfTrue(cfg, "MKQNX_VERBOSE", Arg(Verbose, Some("yes")), Arg(Verbose, v));
  }

  lemma AssumedIpInBehavior(cfg: Config, v: Option<string>)
    ensures Arg(AssumedIp, v) in BehaviorArgs(cfg) <==>
      StrOf(cfg, "MKQNX_ASSUMED_IP", "") != "" && v == Some(StrOf(cfg, "MKQNX_ASSUMED_IP", ""))
  {
    InNonEmpty(cfg, "MKQNX_ASSUMED_IP", AssumedIp, v);
  }

  lemma CleanInBehavior(cfg: Config, v: Option<string>)
    ensures Arg(Clean, v) in BehaviorArgs(cfg) <==>
      BoolOf(cfg, "MKQNX_CLEAN") && v == None
  {
    InIfTrue(cfg, "MKQNX_CLEAN", Arg(Clean, None), Arg(Clean, v));
  }

  lemma NopromptInBehavior(cfg: Config, v: Option<string>)
    ensures Arg(Noprompt, v) in BehaviorArgs(cfg) <==>
      BoolOf(cfg, "MKQNX_NOPROMPT") && v == None
  {
    InIfTrue(cfg, "MKQNX_NOPROMPT", Arg(Noprompt, None), Arg(Noprompt, v));
  }

  lemma TypeInRuntime(cfg: Config, v: Option<string>)
    requires RuntimeArgs(cfg).Success?
    ensures Arg(Type, v) in RuntimeArgs(cfg).value <==>
      var m := FirstMatch(cfg, TypeModes(), "qemu"); m != "qemu" && v == Some(m)
  {
    RuntimeParts(cfg, Arg(Type, v));
    InChoice(cfg, TypeModes(), "qemu", Type, v);
  }

  lemma CpuInRuntime(cfg: Config, v: Option<string>)
    requires RuntimeArgs(cfg).Success?
    ensures Arg(Cpu, v) in RuntimeArgs(cfg).value <==>
      var n := IntOf(cfg, "MKQNX_CPU", 2).value; 1 <= n <= 4 && n != 2 && v == Some(IntToString(n))
  {
    RuntimeParts(cfg, Arg(Cpu, v));
  }

  lemma ProcInRuntime(cfg: Config, v: Option<string>)
    requires RuntimeArgs(cfg).Success?
    ensures Arg(Proc, v) in RuntimeArgs(cfg).value <==>
      StrOf(cfg, "MKQNX_PROC", "") != "" && v == Some(StrOf(cfg, "MKQNX_PROC", ""))
  {
    RuntimeParts(cfg, Arg(Proc, v));
    InNonEmpty(cfg, "MKQNX_PROC", Proc, v);
  }

  lemma RamInRuntime(cfg: Config, v: Option<string>)
    requires RuntimeArgs(cfg).Success?
    ensures Arg(Ram, v) in RuntimeArgs(cfg).value <==>
      var ram := StrOf(cfg, "MKQNX_RAM", "1G"); GenDefaultConfig.RamFormat(ram) && ram != "1G" && v == Some(ram)
  {
    RuntimeParts(cfg, Arg(Ram, v));
  }

  /** Membership in the runtime heading, part by part. */
  lemma RuntimeParts(cfg: Config, x: Arg)
    requires RuntimeArgs(cfg).Success?
    ensures var cpu := CpuCount(IntOf(cfg, "MKQNX_CPU", 2).value);
      var ram := RamSize(StrOf(cfg, "MKQNX_RAM", "1G"));
      x in RuntimeArgs(cfg).value <==>
        x in Choice(cfg, TypeModes(), "qemu", Type) || x in When(cpu != 2, Arg(Cpu, Some(IntToString(cpu))))
        || x in NonEmpty(cfg, "MKQNX_PROC", Proc) || x in When(ram != "1G", Arg(Ram, Some(ram)))
  {
    var cpu := CpuCount(IntOf(cfg, "MKQNX_CPU", 2).value);
    var ram := RamSize(StrOf(cfg, "MKQNX_RAM", "1G"));
    InFour(Choice(cfg, TypeModes(), "qemu", Type), When(cpu != 2, Arg(Cpu, Some(IntToString(cpu)))),
           NonEmpty(cfg, "MKQNX_PROC", Proc), When(ram != "1G", Arg(Ram, Some(ram))), x);
  }

  lemma PartSizesInPartition(cfg: Config, v: Option<string>)
    requires PartitionArgs(cfg).Success?
    ensures Arg(PartSizes, v) in PartitionArgs(cfg).value <==>
      var ps := StrOf(cfg, "MKQNX_PART_SIZES", "full"); ps != "full" && v == Some(ps)
  {
  }

  lemma UnionInFs(cfg: Config, v: Option<string>)
    ensures Arg(Union, v) in FsArgs(cfg) <==>
      !BoolOf(cfg, "MKQNX_UNION") && v == Some("no")
  {
    InIfNotTrue(cfg, "MKQNX_UNION", Union, v);
  }

  lemma QcfsInFs(cfg: Config, v: Option<string>)
    ensures Arg(Qcfs, v) in FsArgs(cfg) <==>
      var m := FirstMatch(cfg, QcfsModes(), "no"); m != "no" && v == Some(m)
  {
    InChoice(cfg, QcfsModes(), "no", Qcfs, v);
  }

  lemma QtdInFs(cfg: Config, v: Option<string>)
    ensures Arg(Qtd, v) in FsArgs(cfg) <==>
      BoolOf(cfg, "MKQNX_QTD") && v == Some("yes")
  {
    InIfTrue(cfg, "MKQNX_QTD", Arg(Qtd, Some("yes")), Arg(Qtd, v));
  }

  lemma QtsafefsInFs(cfg: Config, v: Option<string>)
    ensures Arg(Qtsafefs, v) in FsArgs(cfg) <==>
      BoolOf(cfg, "MKQNX_QTSAFEFS") && v == Some("yes")
  {
    InIfTrue(cfg, "MKQNX_QTSAFEFS", Arg(Qtsafefs, Some("yes")), Arg(Qtsafefs, v));
  }

  lemma SecureDataInFs(cfg: Config, v: Option<string>)
    ensures Arg(SecureData, v) in FsArgs(cfg) <==>
      var m := FirstMatch(cfg, SecureDataModes(), "no"); m != "no" && v == Some(m)
  {
    InChoice(cfg, SecureDataModes(), "no", SecureData, v);
  }

  lemma PathtrustInFs(cfg: Config, v: Option<string>)
    ensures Arg(Pathtrust, v) in FsArgs(cfg) <==>
      BoolOf(cfg, "MKQNX_PATHTRUST") && v == Some("yes")
  {
    InIfTrue(cfg, "MKQNX_PATHTRUST", Arg(Pathtrust, Some("yes")), Arg(Pathtrust, v));
  }

  lemma ZoneinfoInFs(cfg: Config, v: Option<string>)
    ensures Arg(Zoneinfo, v) in FsArgs(cfg) <==>
      var z := if BoolOf(cfg, "MKQNX_ZONEINFO_YES") then "yes" else StrOf(cfg, "MKQNX_ZONEINFO_PATH", "");
      z != "" && z != "no" && v == Some(z)
  {
  }

  lemma TzInFs(cfg: Config, v: Option<string>)
    ensures Arg(Tz, v) in FsArgs(cfg) <==>
      var s := StrOf(cfg, "MKQNX_TZ", "UTC"); s != "" && s != "UTC" && v == Some(s)
  {
    InValued(cfg, "MKQNX_TZ", "UTC", Tz, v);
  }

  lemma UsersInUsers(cfg: Config, v: Option<string>)
    ensures Arg(Users, v) in UsersArgs(cfg) <==>
      StrOf(cfg, "MKQNX_USERS", "") != "" && v == Some(StrOf(cfg, "MKQNX_USERS", ""))
  {
    InNonEmpty(cfg, "MKQNX_USERS", Users, v);
  }

  lemma SshIdentInUsers(cfg: Config, v: Option<string>)
    ensures Arg(SshIdent, v) in UsersArgs(cfg) <==>
      var s := StrOf(cfg, "MKQNX_SSH_IDENT", "prompt"); s != "" && s != "prompt" && v == Some(s)
  {
    InValued(cfg, "MKQNX_SSH_IDENT", "prompt", SshIdent, v);
  }

  lemma SshdPregenInUsers(cfg: Config, v: Option<string>)
    ensures Arg(SshdPregen, v) in UsersArgs(cfg) <==>
      "MKQNX_SSHD_PREGEN" in cfg && v == Some(if BoolOf(cfg, "MKQNX_SSHD_PREGEN") then "yes" else "no")
  {
  }

  lemma IpInNetwork(cfg: Config, v: Option<string>)
    ensures Arg(Ip, v) in NetworkArgs(cfg) <==>
      var s := StrOf(cfg, "MKQNX_IP", "dhcp"); s != "" && s != "dhcp" && v == Some(s)
  {
    InValued(cfg, "MKQNX_IP", "dhcp", Ip, v);
  }

  lemma HostnameInNetwork(cfg: Config, v: Option<string>)
    ensures Arg(Hostname, v) in NetworkArgs(cfg) <==>
      StrOf(cfg, "MKQNX_HOSTNAME", "") != "" && v == Some(StrOf(cfg, "MKQNX_HOSTNAME", ""))
  {
    InNonEmpty(cfg, "MKQNX_HOSTNAME", Hostname, v);
  }

  lemma MacaddrInNetwork(cfg: Config, v: Option<string>)
    ensures Arg(Macaddr, v) in NetworkArgs(cfg) <==>
      StrOf(cfg, "MKQNX_MACADDR", "") != "" && v == Some(StrOf(cfg, "MKQNX_MACADDR", ""))
  {
    InNonEmpty(cfg, "MKQNX_MACADDR", Macaddr, v);
  }

  lemma TimeServersInNetwork(cfg: Config, v: Option<string>)
    ensures Arg(TimeServers, v) in NetworkArgs(cfg) <==>
      var s := StrOf(cfg, "MKQNX_TIME_SERVERS", "pool.ntp.org"); s != "" && s != "pool.ntp.org" && v == Some(s)
  {
    InValued(cfg, "MKQNX_TIME_SERVERS", "pool.ntp.org", TimeServers, v);
  }

  lemma ReposInRepos(cfg: Config, v: Option<string>)
    ensures Arg(Repos, v) in ReposArgs(cfg) <==>
      StrOf(cfg, "MKQNX_REPOS", "") != "" && v == Some(StrOf(cfg, "MKQNX_REPOS", ""))
  {
    InNonEmpty(cfg, "MKQNX_REPOS", Repos, v);
  }

  lemma ExtraDirsInRepos(cfg: Config, v: Option<string>)
    ensures Arg(ExtraDirs, v) in ReposArgs(cfg) <==>
      StrOf(cfg, "MKQNX_EXTRA_DIRS", "") != "" && v == Some(StrOf(cfg, "MKQNX_EXTRA_DIRS", ""))
  {
    InNonEmpty(cfg, "MKQNX_EXTRA_DIRS", ExtraDirs, v);
  }

  lemma AslrInSecurity(cfg: Config, v: Option<string>)
    ensures Arg(Aslr, v) in SecurityArgs(cfg) <==>
      !BoolOf(cfg, "MKQNX_ASLR") && v == Some("no")
  {
    InIfNotTrue(cfg, "MKQNX_ASLR", Aslr, v);
  }

  lemma SecureProcfsInSecurity(cfg: Config, v: Option<string>)
    ensures Arg(SecureProcfs, v) in SecurityArgs(cfg) <==>
      BoolOf(cfg, "MKQNX_SECURE_PROCFS") && v == Some("yes")
  {
    InIfTrue(cfg, "MKQNX_SECURE_PROCFS", Arg(SecureProcfs, Some("yes")), Arg(SecureProcfs, v));
  }

  lemma CerticomInSecurity(cfg: Config, v: Option<string>)
    ensures Arg(Certicom, v) in SecurityArgs(cfg) <==>
      BoolOf(cfg, "MKQNX_CERTICOM") && v == Some("yes")
  {
    InIfTrue(cfg, "MKQNX_CERTICOM", Arg(Certicom, Some("yes")), Arg(Certicom, v));
  }

  lemma TcgInSecurity(cfg: Config, v: Option<string>)
    ensures Arg(Tcg, v) in SecurityArgs(cfg) <==>
      var m := FirstMatch(cfg, TcgModes(), "no"); m != "no" && v == Some(m)
  {
    InChoice(cfg, TcgModes(), "no", Tcg, v);
  }

  lemma CryptodevInSecurity(cfg: Config, v: Option<string>)
    ensures Arg(Cryptodev, v) in SecurityArgs(cfg) <==>
      BoolOf(cfg, "MKQNX_CRYPTODEV") && v == Some("yes")
  {
    InIfTrue(cfg, "MKQNX_CRYPTODEV", Arg(Cryptodev, Some("yes")), Arg(Cryptodev, v));
  }

  lemma PolicyInSecurity(cfg: Config, v: Option<string>)
    ensures Arg(Policy, v) in SecurityArgs(cfg) <==>
      var s := StrOf(cfg, "MKQNX_POLICY", "none"); s != "" && s != "none" && v == Some(s)
  {
    InValued(cfg, "MKQNX_POLICY", "none", Policy, v);
  }

  lemma SecpolInSecurity(cfg: Config, v: Option<string>)
    ensures Arg(Secpol, v) in SecurityArgs(cfg) <==>
      var m := FirstMatch(cfg, SecpolModes(), "no"); m != "no" && v == Some(m)
  {
    InChoice(cfg, SecpolModes(), "no", Secpol, v);
  }

  lemma QfimInSecurity(cfg: Config, v: Option<string>)
    ensures Arg(Qfim, v) in SecurityArgs(cfg) <==>
      BoolOf(cfg, "MKQNX_QFIM") && v == Some("yes")
  {
    InIfTrue(cfg, "MKQNX_QFIM", Arg(Qfim, Some("yes")), Arg(Qfim, v));
  }

  lemma IoSockDiagInDiagnostic(cfg: Config, v: Option<string>)
    ensures Arg(IoSockDiag, v) in DiagnosticArgs(cfg) <==>
      BoolOf(cfg, "MKQNX_IO_SOCK_DIAG") && v == Some("yes")
  {
    InIfTrue(cfg, "MKQNX_IO_SOCK_DIAG", Arg(IoSockDiag, Some("yes")), Arg(IoSockDiag, v));
  }

  lemma SanitizersInDiagnostic(cfg: Config, v: Option<string>)
    ensures Arg(Sanitizers, v) in DiagnosticArgs(cfg) <==>
      BoolOf(cfg, "MKQNX_SANITIZERS") && v == Some("yes")
  {
    InIfTrue(cfg, "MKQNX_SANITIZERS", Arg(Sanitizers, Some("yes")), Arg(Sanitizers, v));
  }

  lemma QhConfigInDiagnostic(cfg: Config, v: Option<string>)
    ensures Arg(QhConfig, v) in DiagnosticArgs(cfg) <==>
      var s := StrOf(cfg, "MKQNX_QH_CONFIG", "no"); s != "" && s != "no" && v == Some(s)
  {
    InValued(cfg, "MKQNX_QH_CONFIG", "no", QhConfig, v);
  }

  lemma UsbInHardware(cfg: Config, v: Option<string>)
    ensures Arg(Usb, v) in HardwareArgs(cfg) <==>
      !BoolOf(cfg, "MKQNX_USB") && v == Some("no")
  {
    InIfNotTrue(cfg, "MKQNX_USB", Usb, v);
  }

  lemma GraphicsInHardware(cfg: Config, v: Option<string>)
    ensures Arg(Graphics, v) in HardwareArgs(cfg) <==>
      BoolOf(cfg, "MKQNX_GRAPHICS") && v == Some("yes")
  {
    InIfTrue(cfg, "MKQNX_GRAPHICS", Arg(Graphics, Some("yes")), Arg(Graphics, v));
  }

  lemma NfsInHardware(cfg: Config, v: Option<string>)
    ensures Arg(Nfs, v) in HardwareArgs(cfg) <==>
      var s := StrOf(cfg, "MKQNX_NFS", "no"); s != "" && s != "no" && v == Some(s)
  {
    InValued(cfg, "MKQNX_NFS", "no", Nfs, v);
  }

  lemma RootInSystem(cfg: Config, v: Option<string>)
    ensures Arg(Root, v) in SystemArgs(cfg) <==>
      BoolOf(cfg, "MKQNX_ROOT") && v == Some("yes")
  {
    InIfTrue(cfg, "MKQNX_ROOT", Arg(Root, Some("yes")), Arg(Root, v));
  }

  lemma AblelockInSystem(cfg: Config, v: Option<string>)
    ensures Arg(Ablelock, v) in SystemArgs(cfg) <==>
      !BoolOf(cfg, "MKQNX_ABLELOCK") && v == Some("no")
  {
    InIfNotTrue(cfg, "MKQNX_ABLELOCK", Ablelock, v);
  }

  lemma SlmInSystem(cfg: Config, v: Option<string>)
    ensures Arg(Slm, v) in SystemArgs(cfg) <==>
      BoolOf(cfg, "MKQNX_SLM") && v == Some("yes")
  {
    InIfTrue(cfg, "MKQNX_SLM", Arg(Slm, Some("yes")), Arg(Slm, v));
  }

  /** A counted field is in the loop's output exactly when its value is positive. */
  lemma {:induction false} SizeArgsHas(cfg: Config, names: seq<string>, k: string, v: Option<string>)
    requires SizeArgs(cfg, names).Success?
    requires k in names
    ensures IntOf(cfg, "MKQNX_" + k, 0).Success?
    ensures Arg(Size(k), v) in SizeArgs(cfg, names).value <==>
      var n := IntOf(cfg, "MKQNX_" + k, 0).value; n > 0 && v == Some(IntToString(n))
    decreases |names|
  {
    var init := names[..|names| - 1];
    var last := names[|names| - 1];
    var prev := SizeArgs(cfg, init).value;
    var n := IntOf(cfg, "MKQNX_" + last, 0).value;
    assert SizeArgs(cfg, names).value == prev + When(n > 0, Arg(Size(last), Some(IntToString(n))));
    if k in init {
      SizeArgsHas(cfg, init, k, v);
    } else {
      var i :| 0 <= i < |names| && names[i] == k;
      assert i < |names| - 1 ==> init[i] == k;
    }
  }

  /** The loop succeeds exactly when every counted field is an integer. */
  lemma {:induction false} SizeArgsSucceeds(cfg: Config, names: seq<string>)
    ensures SizeArgs(cfg, names).Success? <==> forall k :: k in names ==> IntOf(cfg, "MKQNX_" + k, 0).Success?
    decreases |names|
  {
    if |names| > 0 {
      SizeArgsSucceeds(cfg, names[..|names| - 1]);
      MembersSplit(names);
    }
  }

  /** The partition heading fails exactly when one of the five counted fields
      is not an integer. */
  lemma PartitionSucceeds(cfg: Config)
    ensures PartitionArgs(cfg).Success? <==>
      forall k :: k in SizeNames() ==> IntOf(cfg, "MKQNX_" + k, 0).Success?
  {
    SizeArgsSucceeds(cfg, SizeNames());
  }

  lemma SizeInPartition(cfg: Config, k: string, v: Option<string>)
    requires PartitionArgs(cfg).Success?
    requires k in SizeNames()
    ensures IntOf(cfg, "MKQNX_" + k, 0).Success?
    ensures Arg(Size(k), v) in PartitionArgs(cfg).value <==>
      var n := IntOf(cfg, "MKQNX_" + k, 0).value; n > 0 && v == Some(IntToString(n))
  {
    SizeArgsHas(cfg, SizeNames(), k, v);
  }

  /** A package flag is in the loop's output exactly when its symbol is set. */
  lemma {:induction false} PackageArgsHas(cfg: Config, names: seq<string>, k: string, v: Option<string>)
    requires k in names
    ensures Arg(Package(k), v) in PackageArgs(cfg, names) <==> BoolOf(cfg, "MKQNX_" + k) && v == Some("yes")
    decreases |names|
  {
    var init := names[..|names| - 1];
    if k in init {
      PackageArgsHas(cfg, init, k, v);
    } else {
      assert forall j :: 0 <= j < |init| ==> init[j] == names[j];
    }
  }

  /** The first two options of every successful vector. */
  lemma ArgsStart(cfg: Config)
    requires Args(cfg).Success?
    ensures |Args(cfg).value| >= 2
    ensures Args(cfg).value[..2] == PrologueArgs(cfg)
  {
    ArgsSections(cfg);
    HeadOfParts(PrologueArgs(cfg), BehaviorArgs(cfg), RuntimeArgs(cfg).value, PartitionArgs(cfg).value,
                FsArgs(cfg), UsersArgs(cfg), NetworkArgs(cfg), ReposArgs(cfg), SecurityArgs(cfg),
                PackageArgs(cfg, PackageNames()), DiagnosticArgs(cfg), HardwareArgs(cfg), SystemArgs(cfg));
  }

  /** The first three words of every command. */
  lemma CommandStart(exe: string, cfg: Config)
    requires Command(exe, cfg).Success?
    ensures |Command(exe, cfg).value| >= 3
    ensures Command(exe, cfg).value[..3] ==
      [exe, "--force", "--arch=" + if BoolOf(cfg, "MKQNX_ARCH_AARCH64LE") then "aarch64le" else "x86_64"]
  {
    ArgsStart(cfg);
    ArchPriority(cfg);
    var args := Args(cfg).value;
    var m := FirstMatch(cfg, ArchModes(), "x86_64");
    assert args[0] == Arg(Force, None) && args[1] == Arg(Arch, Some(m)) by {
      assert args[..2][0] == args[0] && args[..2][1] == args[1];
    }
    RenderArch(m);
    TextsHead(exe, args);
  }

  /** With nothing configured every counted field reads as zero, so the loop
      succeeds and adds nothing. */
  lemma SizeArgsEmpty(names: seq<string>)
    ensures SizeArgs(map[], names) == Success([])
  {
    var empty: Config := map[];
    SizeArgsSucceeds(empty, names);
    var r := SizeArgs(empty, names).value;
    if |r| > 0 {
      assert r[0] in r;
      SizeArgsHas(empty, names, r[0].opt.sizeName, r[0].value);
      assert false;
    }
  }

  lemma {:induction false} PackageArgsEmpty(names: seq<string>)
    ensures PackageArgs(map[], names) == []
    decreases |names|
  {
    if |names| > 0 {
      PackageArgsEmpty(names[..|names| - 1]);
      var k := names[|names| - 1];
      assert !BoolOf(map[], "MKQNX_" + k);
    }
  }

  /** The empty configuration, heading by heading. */
  lemma EmptyPrologue()
    ensures PrologueArgs(map[]) == [Arg(Force, None), Arg(Arch, Some("x86_64"))]
  {
    ArchPriority(map[]);
  }

  lemma EmptyRuntime()
    ensures RuntimeArgs(map[]) == Success([])
  {
    var empty: Config := map[];
    TypePriority(empty);
    assert IntOf(empty, "MKQNX_CPU", 2) == Success(2);
    assert |RuntimeArgs(empty).value| == 0;
  }

  lemma EmptyPartition()
    ensures PartitionArgs(map[]) == Success([])
  {
    SizeArgsEmpty(SizeNames());
    var none: seq<Arg> := [];
    assert none + none == none;
  }

  lemma EmptyFs()
    ensures FsArgs(map[]) == [Arg(Union, Some("no"))]
  {
    QcfsPriority(map[]);
    SecureDataPriority(map[]);
    var none: seq<Arg> := [];
    var union := [Arg(Union, Some("no"))];
    assert union + none + none + none + none + none + none + none == union;
  }

  lemma EmptySecurity()
    ensures SecurityArgs(map[]) == [Arg(Aslr, Some("no"))]
  {
    TcgPriority(map[]);
    SecpolPriority(map[]);
    var none: seq<Arg> := [];
    var aslr := [Arg(Aslr, Some("no"))];
    assert aslr + none + none + none + none + none + none + none == aslr;
  }

  lemma EmptyRest()
    ensures BehaviorArgs(map[]) == [] && UsersArgs(map[]) == [] && NetworkArgs(map[]) == []
    ensures ReposArgs(map[]) == [] && PackageArgs(map[], PackageNames()) == [] && DiagnosticArgs(map[]) == []
    ensures HardwareArgs(map[]) == [Arg(Usb, Some("no"))]
    ensures SystemArgs(map[]) == [Arg(Ablelock, Some("no"))]
  {
    EmptyQuiet();
    PackageArgsEmpty(PackageNames());
    EmptyDiagnostic();
    EmptyHardware();
    EmptySystem();
  }

  lemma EmptyQuiet()
    ensures BehaviorArgs(map[]) == [] && UsersArgs(map[]) == [] && NetworkArgs(map[]) == []
    ensures ReposArgs(map[]) == []
  {
    var none: seq<Arg> := [];
    assert none + none == none;
  }

  lemma EmptyDiagnostic()
    ensures DiagnosticArgs(map[]) == []
  {
    var none: seq<Arg> := [];
    assert none + none == none;
  }

  lemma EmptyHardware()
    ensures HardwareArgs(map[]) == [Arg(Usb, Some("no"))]
  {
    var none: seq<Arg> := [];
    assert [Arg(Usb, Some("no"))] + none + none == [Arg(Usb, Some("no"))];
  }

  lemma EmptySystem()
    ensures SystemArgs(map[]) == [Arg(Ablelock, Some("no"))]
  {
    var none: seq<Arg> := [];
    assert none + [Arg(Ablelock, Some("no"))] + none == [Arg(Ablelock, Some("no"))];
  }

  /** The empty configuration keeps every default and switches off the four
      options that are on by default. */
  lemma EmptyArgs()
    ensures Args(map[]) == Success([Arg(Force, None), Arg(Arch, Some("x86_64")), Arg(Union, Some("no")),
                                    Arg(Aslr, Some("no")), Arg(Usb, Some("no")), Arg(Ablelock, Some("no"))])
  {
    EmptyPrologue();
    EmptyRuntime();
    EmptyPartition();
    EmptyFs();
    EmptySecurity();
    EmptyRest();
    var p := [Arg(Force, None), Arg(Arch, Some("x86_64"))];
    var none: seq<Arg> := [];
    var fs, sec := [Arg(Union, Some("no"))], [Arg(Aslr, Some("no"))];
    var hw, sys := [Arg(Usb, Some("no"))], [Arg(Ablelock, Some("no"))];
    DropEmpty(p, none, none, none, fs, none, none, none, sec, none, none, hw, sys);
    JoinSingles(p, fs, sec, hw, sys);
  }

  lemma EmptyCommand(exe: string)
    ensures Command(exe, map[]) ==
      Success([exe, "--force", "--arch=x86_64", "--union=no", "--aslr=no", "--usb=no", "--ablelock=no"])
  {
    EmptyArgs();
    CommandTexts(exe, map[]);
    EmptyWords(exe);
  }

  lemma EmptyWords(exe: string)
    ensures [exe] + Texts([Arg(Force, None), Arg(Arch, Some("x86_64")), Arg(Union, Some("no")),
                           Arg(Aslr, Some("no")), Arg(Usb, Some("no")), Arg(Ablelock, Some("no"))])
            == [exe, "--force", "--arch=x86_64", "--union=no", "--aslr=no", "--usb=no", "--ablelock=no"]
  {
    var args := [Arg(Force, None), Arg(Arch, Some("x86_64")), Arg(Union, Some("no")),
                 Arg(Aslr, Some("no")), Arg(Usb, Some("no")), Arg(Ablelock, Some("no"))];
    RenderPrologueOfEmpty();
    RenderUnionAslrOff();
    RenderUsbAblelockOff();
    Words(exe, Texts(args));
  }

  lemma CommandTexts(exe: string, cfg: Config)
    requires Args(cfg).Success?
    ensures Command(exe, cfg) == Success([exe] + Texts(Args(cfg).value))
  {
  }

  /** A counted field's option is its symbol suffix in lower case with each
      underscore turned into a hyphen. */
  lemma SizeSpelling(k: string)
    ensures |OptName(Size(k))| == |k|
    ensures forall i :: 0 <= i < |k| ==>
      OptName(Size(k))[i] == if k[i] == '_' then '-' else LowerChar(k[i])
  {
  }

  // ---------------------------------------------------------------------------
  // Proof steps for the verifier
  // ---------------------------------------------------------------------------
  // These lemmas model nothing of the source: each states one step of a proof
  // above (the shape of a concatenation, the spelling of a literal option, the
  // members of a sequence) on its own, so that the verifier proves it without
  // the configuration in scope.

  lemma InFour(a: seq<Arg>, b: seq<Arg>, c: seq<Arg>, d: seq<Arg>, x: Arg)
    ensures x in a + b + c + d <==> x in a || x in b || x in c || x in d
  {
  }

  /** The members of a non-empty sequence: those before its last element, and the last. */
  lemma MembersSplit(names: seq<string>)
    requires |names| > 0
    ensures forall k :: k in names <==> k in names[..|names| - 1] || k == names[|names| - 1]
  {
    assert names == names[..|names| - 1] + [names[|names| - 1]];
  }

  lemma HeadOfParts(p: seq<Arg>, a: seq<Arg>, b: seq<Arg>, c: seq<Arg>, d: seq<Arg>, e: seq<Arg>, f: seq<Arg>,
                    g: seq<Arg>, h: seq<Arg>, i: seq<Arg>, j: seq<Arg>, k: seq<Arg>, l: seq<Arg>)
    requires |p| == 2
    ensures |p + a + b + c + d + e + f + g + h + i + j + k + l| >= 2
    ensures (p + a + b + c + d + e + f + g + h + i + j + k + l)[..2] == p
  {
  }

  lemma RenderArch(m: string)
    ensures Render(Arg(Force, None)) == "--force"
    ensures Render(Arg(Arch, Some(m))) == "--arch=" + m
  {
    assert "--" + "arch" + "=" == "--arch=";
  }

  lemma TextsHead(exe: string, args: seq<Arg>)
    requires |args| >= 2
    ensures |[exe] + Texts(args)| >= 3
    ensures ([exe] + Texts(args))[..3] == [exe, Render(args[0]), Render(args[1])]
  {
  }

  lemma JoinSingles(p: seq<Arg>, a: seq<Arg>, b: seq<Arg>, c: seq<Arg>, d: seq<Arg>)
    requires |p| == 2 && |a| == 1 && |b| == 1 && |c| == 1 && |d| == 1
    ensures p + a + b + c + d == [p[0], p[1], a[0], b[0], c[0], d[0]]
  {
  }

  lemma DropEmpty(p: seq<Arg>, a: seq<Arg>, b: seq<Arg>, c: seq<Arg>, d: seq<Arg>, e: seq<Arg>, f: seq<Arg>,
                  g: seq<Arg>, h: seq<Arg>, i: seq<Arg>, j: seq<Arg>, k: seq<Arg>, l: seq<Arg>)
    requires a == b == c == e == f == g == i == j == []
    ensures p + a + b + c + d + e + f + g + h + i + j + k + l == p + d + h + k + l
  {
  }

  /** How the six words of the empty configuration are spelled. */
  lemma RenderPrologueOfEmpty()
    ensures Render(Arg(Force, None)) == "--force"
    ensures Render(Arg(Arch, Some("x86_64"))) == "--arch=x86_64"
  {
    assert "--" + "arch" + "=" + "x86_64" == "--arch=x86_64";
  }

  lemma RenderUnionAslrOff()
    ensures Render(Arg(Union, Some("no"))) == "--union=no"
    ensures Render(Arg(Aslr, Some("no"))) == "--aslr=no"
  {
    assert "--" + "union" + "=" + "no" == "--union=no";
    assert "--" + "aslr" + "=" + "no" == "--aslr=no";
  }

  lemma RenderUsbAblelockOff()
    ensures Render(Arg(Usb, Some("no"))) == "--usb=no"
    ensures Render(Arg(Ablelock, Some("no"))) == "--ablelock=no"
  {
    assert "--" + "usb" + "=" + "no" == "--usb=no";
    assert "--" + "ablelock" + "=" + "no" == "--ablelock=no";
  }

  function SevenWords(exe: string, t: seq<string>): seq<string>
    requires |t| == 6
  {
    [exe, t[0], t[1], t[2], t[3], t[4], t[5]]
  }

  lemma Words(exe: string, t: seq<string>)
    requires |t| == 6
    ensures [exe] + t == SevenWords(exe, t)
  {
  }
}
