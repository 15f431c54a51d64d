/**
 * The startup decisions of the bot's command-line entry point
 * (tools/main.py, class Rf4sApp): argument bounds, profile-id parsing, the
 * interactive profile prompt, profile resolution and key-set validation, the
 * BOTTOM_RODS list override, the asset and notification checks, and the
 * feature downgrades for an unsupported window or an incompatible mode.
 *
 * The configuration tree is a record; PROFILE is an ordered sequence of named
 * profiles (mode templates such as "SPIN" are entries of it too, as in the
 * configuration file). Typed input, directory listings, the SMTP handshake and
 * the window's support flag are parameters.
 */
module App {
  import opened Wrappers
  import opened PyStr

  /** An entry of PROFILE: its name, its MODE and the set of its keys. */
  datatype Profile = Profile(name: string, mode: string, keys: set<string>)

  /** The ARGS namespace of the configuration, the fields read or written here. */
  datatype ArgsCfg = ArgsCfg(pid: Option<int>, pname: Option<string>, email: bool,
                             frictionBrake: bool, electro: bool)

  /** The SCRIPT namespace, the fields read or written here. */
  datatype ScriptCfg = ScriptCfg(smtpVerification: bool, imageVerification: bool, language: string,
                                 snagDetection: bool, spoolingDetection: bool)

  /** PROFILE is a dictionary, so no two of its entries share a name. */
  predicate DistinctNames(ps: seq<Profile>) {
    forall i, j :: 0 <= i < j < |ps| ==> ps[i].name != ps[j].name
  }

  /** With distinct names, looking up an entry's name finds that entry. */
  lemma IndexOfDistinct(ps: seq<Profile>, k: int)
    requires DistinctNames(ps) && 0 <= k < |ps|
    ensures IndexOf(ps, ps[k].name) == Some(k)
  {
  }

  datatype Config = Config(keepnetCapacity: int, profiles: seq<Profile>, args: ArgsCfg,
                           script: ScriptCfg, selected: Option<Profile>)

  /** The parsed command line, as far as it is validated. */
  datatype Args = Args(fishesInKeepnet: int, pid: Option<int>, pname: Option<string>)

  /** Python exceptions the startup path can raise and does not catch. */
  datatype PyError = IndexError | AttributeError | EOFError

  /** How a startup step ends: on to the next step, `sys.exit(code)`, or an uncaught exception. */
  datatype Stop = Proceed | Exit(code: int) | Raised(error: PyError)

  /** `list[i]`: negative indices count from the end; anything else out of range raises. */
  function PyIndex<T>(s: seq<T>, i: int): (r: Result<T, PyError>)
    ensures r.Success? <==> -|s| <= i < |s|
    ensures 0 <= i < |s| ==> r == Success(s[i])
    ensures -|s| <= i < 0 ==> r == Success(s[|s| + i])
  {
    if 0 <= i < |s| then Success(s[i])
    else if -|s| <= i < 0 then Success(s[|s| + i])
    else Failure(IndexError)
  }

  /** The position of the profile called `name` in PROFILE, if there is one. */
  function IndexOf(ps: seq<Profile>, name: string): (r: Option<nat>)
    ensures r.Some? ==> r.value < |ps| && ps[r.value].name == name
                        && forall j :: 0 <= j < r.value ==> ps[j].name != name
    ensures r.None? <==> forall j :: 0 <= j < |ps| ==> ps[j].name != name
  {
    if ps == [] then None
    else if ps[0].name == name then Some(0)
    else match IndexOf(ps[1..], name)
      case None => None
      case Some(k) => Some(k + 1)
  }

  // ---------------------------------------------------------------- argument checks

  /** `_is_pid_valid`: a string of digits whose value is a position in PROFILE. */
  function IsPidValid(pid: string, profileCount: int): (valid: bool)
    ensures valid ==> pid != [] && pid[0] != '-' && pid != "q" && pid != "h"
    ensures valid <==> |pid| > 0 && (forall i :: 0 <= i < |pid| ==> '0' <= pid[i] <= '9')
                       && DecimalValue(pid) < profileCount
  {
    IsDigitString(pid) && 0 <= DecimalValue(pid) < profileCount
  }

  /**
   * `_is_args_valid`: the keepnet count lies in [0, capacity), a given profile id
   * (checked through its decimal rendering) is a position in PROFILE, and a given
   * profile name is in PROFILE.
   */
  function IsArgsValid(c: Config, a: Args): (valid: bool)
    ensures valid <==> && 0 <= a.fishesInKeepnet < c.keepnetCapacity
                       && (a.pid.Some? ==> 0 <= a.pid.value < |c.profiles|)
                       && (a.pname.Some? ==> exists j :: 0 <= j < |c.profiles| && c.profiles[j].name == a.pname.value)
  {
    if !(0 <= a.fishesInKeepnet < c.keepnetCapacity) then false
    else if a.pid.Some? && !IsPidValid(IntToStr(a.pid.value), |c.profiles|) then false
    else if a.pname.Some? && IndexOf(c.profiles, a.pname.value).None? then false
    else true
  }

  /**
   * The guard at the end of `__init__`: startup goes on with valid arguments and
   * exits with status 1 otherwise.
   */
  function InitGate(c: Config, a: Args): (stop: Stop)
    ensures stop == Proceed <==> IsArgsValid(c, a)
    ensures stop != Proceed ==> stop == Exit(1)
  {
    if IsArgsValid(c, a) then Proceed else Exit(1)
  }

  /** `_is_smtp_valid`: the handshake matters only when e-mail and its verification are both on. */
  datatype Handshake = LoggedIn | AuthenticationRejected | TimedOutOrUnresolved

  function IsSmtpValid(email: bool, smtpVerification: bool, handshake: Handshake): (valid: bool)
    ensures !email || !smtpVerification ==> valid
    ensures email && smtpVerification ==> (valid <==> handshake == LoggedIn)
  {
    if !email || !smtpVerification then true
    else handshake.LoggedIn?
  }

  // ---------------------------------------------------------------- image set

  datatype ImagesVerdict = ImagesOk | InvalidLanguage | MissingImages(names: set<string>)

  /**
   * `_is_images_valid`: `enImages` are the file names of the reference "en"
   * directory, `langImages` those of the selected language's directory (None when
   * that directory does not exist).
   */
  function CheckImages(imageVerification: bool, language: string, enImages: set<string>,
                       langImages: Option<set<string>>): (v: ImagesVerdict)
    ensures v == ImagesOk <==> !imageVerification || language == "en" || (langImages.Some? && enImages <= langImages.value)
    ensures v == InvalidLanguage <==> imageVerification && language != "en" && langImages.None?
    ensures v.MissingImages? ==> langImages.Some? && v.names == enImages - langImages.value && v.names != {}
  {
    if !imageVerification then ImagesOk
    else if language == "en" then ImagesOk
    else match langImages
      case None => InvalidLanguage
      case Some(current) =>
        var missing := enImages - current;
        if missing != {} then MissingImages(missing)
        else
          assert enImages <= current by {
            forall f | f in enImages ensures f in current { assert f !in missing; }
          }
          ImagesOk
  }

  // ---------------------------------------------------------------- profile keys

  datatype ProfileVerdict =
    | ProfileOk
    | UnknownProfile
    | UnknownMode(mode: string)
    | KeyMismatch(invalidKeys: set<string>, missingKeys: set<string>)

  /**
   * `_is_profile_valid`: the profile must exist, its mode (upper-cased) must name a
   * template in PROFILE, and its key set must equal the template's. A mismatch
   * reports every key on either side of the difference.
   */
  function CheckProfile(ps: seq<Profile>, name: string): (v: ProfileVerdict)
    ensures v.UnknownProfile? <==> IndexOf(ps, name).None?
    ensures v.UnknownMode? <==> IndexOf(ps, name).Some? && IndexOf(ps, Upper(ps[IndexOf(ps, name).value].mode)).None?
    ensures v == ProfileOk <==> IndexOf(ps, name).Some? && IndexOf(ps, Upper(ps[IndexOf(ps, name).value].mode)).Some?
                                && ps[IndexOf(ps, name).value].keys == ps[IndexOf(ps, Upper(ps[IndexOf(ps, name).value].mode)).value].keys
    ensures v.KeyMismatch? ==>
              var actual := ps[IndexOf(ps, name).value].keys;
              var expected := ps[IndexOf(ps, Upper(ps[IndexOf(ps, name).value].mode)).value].keys;
              && v.invalidKeys == actual - expected
              && v.missingKeys == expected - actual
              && (v.invalidKeys != {} || v.missingKeys != {})
  {
    match IndexOf(ps, name)
    case None => UnknownProfile
    case Some(i) =>
      var mode := ps[i].mode;
      match IndexOf(ps, Upper(mode))
      case None => UnknownMode(mode)
      case Some(t) =>
        var expected := ps[t].keys;
        var actual := ps[i].keys;
        var invalid := actual - expected;
        var missing := expected - actual;
        if invalid != {} || missing != {} then KeyMismatch(invalid, missing)
        else
          assert actual == expected by {
            assert forall k :: k in actual ==> k in expected by {
              forall k | k in actual ensures k in expected { assert k !in invalid; }
            }
            assert forall k :: k in expected ==> k in actual by {
              forall k | k in expected ensures k in actual { assert k !in missing; }
            }
          }
          ProfileOk
  }

  // ---------------------------------------------------------------- BOTTOM_RODS override

  /** An element of `args.opts`: a raw string, or a list once a list-valued override is split. */
  datatype Opt = Str(s: string) | List(items: seq<string>)

  const BottomRodsKey: string := "KEY.BOTTOM_RODS"

  /** `opts.index(x)`: the first position holding `x`. */
  function FirstIndex(opts: seq<Opt>, x: Opt): (i: nat)
    requires x in opts
    ensures i < |opts| && opts[i] == x && x !in opts[..i]
  {
    if opts[0] == x then 0
    else
      var i := 1 + FirstIndex(opts[1..], x);
      assert opts[..i] == [opts[0]] + opts[1..][..i - 1];
      i
  }

  /** `[x.strip() for x in v.split(",")]`. */
  function RodList(v: string): seq<string> {
    var raw := Split(v, ',');
    seq(|raw|, k requires 0 <= k < |raw| => Strip(raw[k]))
  }

  /**
   * The rod list has one entry per comma-separated piece of `v`: that piece
   * stripped, so it holds no comma and neither starts nor ends with whitespace.
   */
  lemma RodListPieces(v: string)
    ensures |RodList(v)| == |Split(v, ',')|
    ensures forall k :: 0 <= k < |RodList(v)| ==>
              && RodList(v)[k] == Strip(Split(v, ',')[k])
              && ',' !in RodList(v)[k]
              && (RodList(v)[k] == [] || (!IsSpace(RodList(v)[k][0]) && !IsSpace(RodList(v)[k][|RodList(v)[k]| - 1])))
  {
  }

  /**
   * The in-place rewrite of `args.opts`: the element after the first
   * "KEY.BOTTOM_RODS" becomes the list of its comma-separated, stripped pieces;
   * nothing else changes. With no element after the key, indexing raises.
   */
  function SplitBottomRods(opts: seq<Opt>): (r: Result<seq<Opt>, PyError>)
    ensures Str(BottomRodsKey) !in opts ==> r == Success(opts)
    ensures Str(BottomRodsKey) in opts ==>
              var i := FirstIndex(opts, Str(BottomRodsKey));
              && (r == Failure(IndexError) <==> i + 1 == |opts|)
              && (r == Failure(AttributeError) <==> i + 1 < |opts| && opts[i + 1].List?)
              && (r.Success? ==> && i + 1 < |opts| && opts[i + 1].Str?
                                 && r.value == opts[i + 1 := List(RodList(opts[i + 1].s))])
    ensures r.Success? ==> |r.value| == |opts|
    ensures r.Success? ==> forall j :: 0 <= j < |opts| && (j == 0 || opts[j - 1] != Str(BottomRodsKey)) ==>
                             r.value[j] == opts[j]
  {
    if Str(BottomRodsKey) !in opts then Success(opts)
    else
      var i := FirstIndex(opts, Str(BottomRodsKey));
      if i + 1 >= |opts| then Failure(IndexError)
      else if opts[i + 1].List? then Failure(AttributeError)
      else Success(opts[i + 1 := List(RodList(opts[i + 1].s))])
  }

  // ---------------------------------------------------------------- interactive prompt

  /** What the prompt prints after an input that does not end it. */
  datatype PromptReply = ShowHelp | ReportInvalid

  /** How the prompt loop ends: a valid id, "q", or the end of the input stream. */
  datatype PromptOutcome =
    | Chosen(pid: nat, replies: seq<PromptReply>)
    | Quit(replies: seq<PromptReply>)
    | EndOfInput(replies: seq<PromptReply>)

  function ReplyTo(input: string): PromptReply {
    if input == "h" then ShowHelp else ReportInvalid
  }

  /** An input that ends the prompt loop. */
  predicate Decisive(input: string, profileCount: int) {
    IsPidValid(input, profileCount) || input == "q"
  }

  function WithReplies(rs: seq<PromptReply>, o: PromptOutcome): PromptOutcome {
    match o
    case Chosen(p, more) => Chosen(p, rs + more)
    case Quit(more) => Quit(rs + more)
    case EndOfInput(more) => EndOfInput(rs + more)
  }

  /**
   * The `_get_pid` loop over the scripted inputs: valid id first, then "q";
   * any other input is answered and the loop reads the next one.
   */
  function PromptSession(inputs: seq<string>, profileCount: int): PromptOutcome {
    if inputs == [] then EndOfInput([])
    else if IsPidValid(inputs[0], profileCount) then Chosen(DecimalValue(inputs[0]), [])
    else if inputs[0] == "q" then Quit([])
    else WithReplies([ReplyTo(inputs[0])], PromptSession(inputs[1..], profileCount))
  }

  /**
   * The first input that is a valid id or "q" decides the prompt; every input
   * before it gets the help text ("h") or an invalid-id message, with no limit on
   * retries. A chosen id is the value of the deciding input and a position in
   * PROFILE; input that runs out is consumed entirely.
   */
  lemma {:induction false} PromptDecides(inputs: seq<string>, profileCount: int)
    ensures var o := PromptSession(inputs, profileCount);
            && |o.replies| <= |inputs|
            && (forall k :: 0 <= k < |o.replies| ==>
                  !Decisive(inputs[k], profileCount) && o.replies[k] == ReplyTo(inputs[k]))
            && (o.Chosen? ==> && |o.replies| < |inputs|
                              && IsPidValid(inputs[|o.replies|], profileCount)
                              && o.pid == DecimalValue(inputs[|o.replies|]) < profileCount)
            && (o.Quit? ==> |o.replies| < |inputs| && inputs[|o.replies|] == "q")
            && (o.EndOfInput? ==> |o.replies| == |inputs|)
  {
    if inputs != [] && !Decisive(inputs[0], profileCount) {
      var rest := inputs[1..];
      PromptDecides(rest, profileCount);
      var o := PromptSession(inputs, profileCount);
      var r := PromptSession(rest, profileCount);
      assert o.replies == [ReplyTo(inputs[0])] + r.replies;
      forall k | 0 < k < |o.replies|
        ensures !Decisive(inputs[k], profileCount) && o.replies[k] == ReplyTo(inputs[k])
      {
        assert inputs[k] == rest[k - 1] && o.replies[k] == r.replies[k - 1];
      }
    }
  }

  /** Prefixing replies twice is prefixing their concatenation. */
  lemma WithRepliesTwice(a: seq<PromptReply>, b: seq<PromptReply>, o: PromptOutcome)
    ensures WithReplies(a, WithReplies(b, o)) == WithReplies(a + b, o)
  {
  }

  /** One turn of the prompt: the first input decides, or is answered and the rest decides. */
  lemma PromptStep(inputs: seq<string>, profileCount: int)
    requires inputs != []
    ensures PromptSession(inputs, profileCount) ==
              if IsPidValid(inputs[0], profileCount) then Chosen(DecimalValue(inputs[0]), [])
              else if inputs[0] == "q" then Quit([])
              else WithReplies([ReplyTo(inputs[0])], PromptSession(inputs[1..], profileCount))
  {
  }

  // ---------------------------------------------------------------- profile resolution

  /**
   * The first half of `setup_user_profile`: the profile name it settles on, or
   * how it stops before that. A name beats an id, and the prompt runs only when
   * both are unset.
   */
  function Resolve(c: Config, inputs: seq<string>): (r: Result<string, Stop>)
    ensures c.args.pname.Some? ==> r == Success(c.args.pname.value)
    ensures c.args.pname.None? && r.Success? ==> exists j :: 0 <= j < |c.profiles| && c.profiles[j].name == r.value
    ensures r.Failure? ==> r.error in {Exit(0), Raised(EOFError), Raised(IndexError)}
    ensures c.args.pname.None? && c.args.pid.None? && r.Failure? ==> r.error != Raised(IndexError)
    ensures c.args.pname.None? && c.args.pid.Some? ==>
              r == match PyIndex(c.profiles, c.args.pid.value)
                   case Success(p) => Success(p.name)
                   case Failure(e) => Failure(Raised(e))
    ensures c.args.pname.None? && c.args.pid.None? ==>
              match PromptSession(inputs, |c.profiles|)
              case Chosen(p, _) => p < |c.profiles| && r == Success(c.profiles[p].name)
              case Quit(_) => r == Failure(Exit(0))
              case EndOfInput(_) => r == Failure(Raised(EOFError))
  {
    if c.args.pname.Some? then Success(c.args.pname.value)
    else
      var pid: Result<int, Stop> :=
        if c.args.pid.Some? then Success(c.args.pid.value)
        else match PromptSession(inputs, |c.profiles|)
          case Chosen(p, _) => Success(p)
          case Quit(_) => Failure(Exit(0))
          case EndOfInput(_) => Failure(Raised(EOFError));
      if pid.Failure? then Failure(pid.error)
      else
        PromptDecides(inputs, |c.profiles|);
        match PyIndex(c.profiles, pid.value)
        case Success(p) => Success(p.name)
        case Failure(e) => Failure(Raised(e))
  }

  // ---------------------------------------------------------------- the application

  class Rf4sApp {
    var cfg: Config
    /** The free-form configuration overrides of the command line. */
    var opts: seq<Opt>

    /** The application once its command line has been validated and merged into `cfg`. */
    constructor (cfg: Config, opts: seq<Opt>)
      ensures this.cfg == cfg && this.opts == opts
    {
      this.cfg := cfg;
      this.opts := opts;
    }

    /**
     * `_get_pid`: prompts until the first decisive input; a valid id is written to
     * ARGS.PID, "q" exits with the default status, and running out of input raises.
     */
    method GetPid(inputs: seq<string>) returns (outcome: PromptOutcome)
      modifies this`cfg
      ensures outcome == PromptSession(inputs, |old(cfg).profiles|)
      ensures cfg == if outcome.Chosen? then old(cfg).(args := old(cfg).args.(pid := Some(outcome.pid)))
                     else old(cfg)
    {
      var n := |cfg.profiles|;
      var replies: seq<PromptReply> := [];
      var i := 0;
      while true
        invariant 0 <= i <= |inputs|
        invariant PromptSession(inputs, n) == WithReplies(replies, PromptSession(inputs[i..], n))
        invariant cfg == old(cfg)
        decreases |inputs| - i
      {
        if i == |inputs| {
          assert replies + [] == replies;
          outcome := EndOfInput(replies);
          return;
        }
        var userInput := inputs[i];
        PromptStep(inputs[i..], n);
        assert inputs[i..][0] == userInput && inputs[i..][1..] == inputs[i + 1..];
        if IsPidValid(userInput, n) {
          outcome := Chosen(DecimalValue(userInput), replies);
          cfg := cfg.(args := cfg.args.(pid := Some(DecimalValue(userInput))));
          return;
        }
        if userInput == "q" {
          outcome := Quit(replies);
          return;
        }
        WithRepliesTwice(replies, [ReplyTo(userInput)], PromptSession(inputs[i + 1..], n));
        replies := replies + [ReplyTo(userInput)];
        i := i + 1;
      }
    }

    /**
     * `setup_user_profile`: resolves the profile (name, else id, else the prompt),
     * validates it, selects it, applies the BOTTOM_RODS split, then runs the SMTP
     * and image checks.
     */
    method SetupUserProfile(inputs: seq<string>, handshake: Handshake, enImages: set<string>,
                            langImages: Option<set<string>>) returns (stop: Stop)
      requires DistinctNames(cfg.profiles)
      modifies this
      // A profile name beats a profile id, and the prompt runs only when both are unset.
      ensures old(cfg).args.pname.Some? || old(cfg).args.pid.Some? ==> cfg.args == old(cfg).args
      ensures old(cfg).args.pname.None? && old(cfg).args.pid.None? ==>
                match PromptSession(inputs, |old(cfg).profiles|)
                case Quit(_) => stop == Exit(0) && cfg == old(cfg) && opts == old(opts)
                case EndOfInput(_) => stop == Raised(EOFError) && cfg == old(cfg) && opts == old(opts)
                case Chosen(p, _) => cfg.args == old(cfg).args.(pid := Some(p))
      ensures cfg.profiles == old(cfg).profiles && cfg.script == old(cfg).script
      ensures cfg.keepnetCapacity == old(cfg).keepnetCapacity
      ensures (old(cfg).args.pname.None? && old(cfg).args.pid.Some?
               && PyIndex(old(cfg).profiles, old(cfg).args.pid.value).Failure?) ==> stop == Raised(IndexError)
      // The profile that goes on is the resolved one, and it passed every check.
      ensures stop == Proceed ==>
                && cfg.selected.Some?
                && (old(cfg).args.pname.Some? ==> cfg.selected.value.name == old(cfg).args.pname.value)
                && (old(cfg).args.pname.None? ==> && cfg.args.pid.Some?
                                                  && PyIndex(cfg.profiles, cfg.args.pid.value).Success?
                                                  && PyIndex(cfg.profiles, cfg.args.pid.value).value.name
                                                     == cfg.selected.value.name)
                && IndexOf(cfg.profiles, cfg.selected.value.name) != None
                && cfg.selected.value == cfg.profiles[IndexOf(cfg.profiles, cfg.selected.value.name).value]
                && CheckProfile(cfg.profiles, cfg.selected.value.name) == ProfileOk
                && SplitBottomRods(old(opts)) == Success(opts)
                && IsSmtpValid(cfg.args.email, cfg.script.smtpVerification, handshake)
                && CheckImages(cfg.script.imageVerification, cfg.script.language, enImages, langImages) == ImagesOk
      // `opts` is either untouched or rewritten by the split, whatever the outcome.
      ensures opts == old(opts) || SplitBottomRods(old(opts)) == Success(opts)
      // With distinct names, the profile picked by id is the entry at that id.
      ensures stop == Proceed && old(cfg).args.pname.None? ==>
                && cfg.args.pid.Some? && PyIndex(cfg.profiles, cfg.args.pid.value).Success?
                && cfg.selected == Some(PyIndex(cfg.profiles, cfg.args.pid.value).value)
      // Stopping before a name is settled changes neither the selection nor `opts`.
      ensures var res := Resolve(old(cfg), inputs);
              res.Failure? ==> stop == res.error && cfg.selected == old(cfg).selected && opts == old(opts)
      // With a name settled: every outcome, in terms of the checks it meets.
      ensures var res := Resolve(old(cfg), inputs);
              var profileOk := res.Success? && CheckProfile(old(cfg).profiles, res.value) == ProfileOk;
              var split := SplitBottomRods(old(opts));
              var checks := && IsSmtpValid(old(cfg).args.email, old(cfg).script.smtpVerification, handshake)
                            && CheckImages(old(cfg).script.imageVerification, old(cfg).script.language,
                                           enImages, langImages) == ImagesOk;
              res.Success? ==>
                && (stop == Proceed <==> profileOk && split.Success? && checks)
                && (stop == Exit(1) <==> !profileOk || (split.Success? && !checks))
                && (stop.Raised? <==> profileOk && split.Failure?)
                && (stop.Raised? ==> stop == Raised(split.error))
                && (!profileOk ==> cfg.selected == old(cfg).selected && opts == old(opts))
                && (profileOk && split.Success? ==> opts == split.value)
                && (profileOk ==> cfg.selected == Some(old(cfg).profiles[IndexOf(old(cfg).profiles, res.value).value]))
    {
      var res := ResolveName(inputs);
      if res.Failure? {
        return res.error;
      }
      stop := SelectProfile(res.value, handshake, enImages, langImages);
    }

    /**
     * The first half of `setup_user_profile`: the name, else the entry at ARGS.PID,
     * prompting for that id first when it is unset.
     */
    method ResolveName(inputs: seq<string>) returns (r: Result<string, Stop>)
      requires DistinctNames(cfg.profiles)
      modifies this`cfg
      ensures r == Resolve(old(cfg), inputs)
      ensures cfg == if old(cfg).args.pname.None? && old(cfg).args.pid.None?
                        && PromptSession(inputs, |old(cfg).profiles|).Chosen?
                     then old(cfg).(args := old(cfg).args.(pid := Some(PromptSession(inputs, |old(cfg).profiles|).pid)))
                     else old(cfg)
      // With distinct names, the name picked by id leads back to the entry at that id.
      ensures r.Success? && old(cfg).args.pname.None? ==>
                && cfg.args.pid.Some? && PyIndex(cfg.profiles, cfg.args.pid.value).Success?
                && IndexOf(cfg.profiles, r.value).Some?
                && PyIndex(cfg.profiles, cfg.args.pid.value).value == cfg.profiles[IndexOf(cfg.profiles, r.value).value]
    {
      if cfg.args.pname.Some? {
        return Success(cfg.args.pname.value);
      }
      if cfg.args.pid.None? {
        var outcome := GetPid(inputs);
        if outcome.Quit? {
          return Failure(Exit(0));
        } else if outcome.EndOfInput? {
          return Failure(Raised(EOFError));
        }
      }
      var entry := PyIndex(cfg.profiles, cfg.args.pid.value);
      if entry.Failure? {
        return Failure(Raised(entry.error));
      }
      ghost var k := if cfg.args.pid.value >= 0 then cfg.args.pid.value else |cfg.profiles| + cfg.args.pid.value;
      IndexOfDistinct(cfg.profiles, k);
      return Success(entry.value.name);
    }

    /**
     * The second half of `setup_user_profile`, once the name is settled: validate
     * the profile, select it, apply the BOTTOM_RODS split, then run the SMTP and
     * image checks on the configuration.
     */
    method SelectProfile(name: string, handshake: Handshake, enImages: set<string>,
                         langImages: Option<set<string>>) returns (stop: Stop)
      modifies this
      ensures var profileOk := CheckProfile(old(cfg).profiles, name) == ProfileOk;
              var split := SplitBottomRods(old(opts));
              var checks := && IsSmtpValid(old(cfg).args.email, old(cfg).script.smtpVerification, handshake)
                            && CheckImages(old(cfg).script.imageVerification, old(cfg).script.language,
                                           enImages, langImages) == ImagesOk;
              && (stop == Proceed <==> profileOk && split.Success? && checks)
              && (stop == Exit(1) <==> !profileOk || (split.Success? && !checks))
              && (stop.Raised? <==> profileOk && split.Failure?)
              && (stop.Raised? ==> stop == Raised(split.error))
              && cfg == (if profileOk then old(cfg).(selected := Some(old(cfg).profiles[IndexOf(old(cfg).profiles, name).value]))
                         else old(cfg))
              && opts == (if profileOk && split.Success? then split.value else old(opts))
    {
      if CheckProfile(cfg.profiles, name) != ProfileOk {
        return Exit(1);
      }
      var i := IndexOf(cfg.profiles, name).value;
      cfg := cfg.(selected := Some(cfg.profiles[i]));

      var split := SplitBottomRods(opts);
      if split.Failure? {
        return Raised(split.error);
      }
      opts := split.value;

      if !IsSmtpValid(cfg.args.email, cfg.script.smtpVerification, handshake)
         || CheckImages(cfg.script.imageVerification, cfg.script.language, enImages, langImages) != ImagesOk {
        return Exit(1);
      }
      return Proceed;
    }

    /**
     * `setup_window`: an unsupported window switches off the friction brake, snag
     * detection and spooling detection, and is fatal only in the telescopic and
     * bolognese modes.
     */
    method SetupWindow(supported: bool) returns (stop: Stop)
      requires cfg.selected.Some?
      modifies this`cfg
      ensures supported ==> cfg == old(cfg) && stop == Proceed
      ensures !supported ==>
                cfg == old(cfg).(args := old(cfg).args.(frictionBrake := false),
                                 script := old(cfg).script.(snagDetection := false, spoolingDetection := false))
      ensures stop == Exit(1) <==> !supported && cfg.selected.value.mode in ["telescopic", "bolognese"]
      ensures stop == Proceed || stop == Exit(1)
    {
      if !supported {
        cfg := cfg.(args := cfg.args.(frictionBrake := false));
        cfg := cfg.(script := cfg.script.(snagDetection := false));
        cfg := cfg.(script := cfg.script.(spoolingDetection := false));
      }
      if cfg.selected.value.mode in ["telescopic", "bolognese"] && !supported {
        return Exit(1);
      }
      return Proceed;
    }

    /** `print_hints`: electric mode is switched off outside the pirk and elevator modes. */
    method PrintHints()
      requires cfg.selected.Some?
      modifies this`cfg
      ensures cfg == old(cfg).(args := old(cfg).args.(
                electro := old(cfg).args.electro && old(cfg).selected.value.mode in ["pirk", "elevator"]))
    {
      if cfg.args.electro {
        if cfg.selected.value.mode !in ["pirk", "elevator"] {
          cfg := cfg.(args := cfg.args.(electro := false));
        }
      }
    }
  }
}
