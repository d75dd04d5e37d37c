/**
 * The version-info record of version.go and everything derived from it: the
 * short commit, the display string, the multi-line report, the field map, the
 * JSON key set, validation, the development flag, the build timestamp and the
 * fluent builder.
 *
 * One absence rule runs through all of it: a commit or a build date is absent
 * when it is "" or "unknown", a branch is absent when it is "".
 */
module Version {
  import opened Wrappers

  // ---------------------------------------------------------------------------
  // Environment and package-level variables
  // ---------------------------------------------------------------------------

  /** What the Go runtime reports about the toolchain: runtime.Version(),
      runtime.GOOS, runtime.GOARCH and runtime.Compiler. The model treats them
      as opaque strings supplied by the caller. */
  datatype Env = Env(goVersion: string, goos: string, goarch: string, compiler: string)

  /** The "os/arch" pair stored in Info.platform. */
  function Platform(env: Env): string {
    env.goos + "/" + env.goarch
  }

  /** The package-level variables Version, Commit, BuildDate and Branch, which a
      build overrides with -ldflags; here an explicit input record. */
  datatype Globals = Globals(version: string, commit: string, buildDate: string, branch: string)

  /** The values of those variables when the build does not override them. */
  const LINKER_DEFAULTS := Globals("dev", "unknown", "unknown", "")

  // ---------------------------------------------------------------------------
  // The record
  // ---------------------------------------------------------------------------

  datatype Info = Info(
    version: string,
    commit: string,
    buildDate: string,
    branch: string,
    goVersion: string,
    platform: string,
    compiler: string)

  const UNKNOWN := "unknown"
  const SHORT_COMMIT_LENGTH := 7

  /** A commit or build date is present unless it is "" or the sentinel "unknown". */
  predicate IsSet(s: string) {
    s != "" && s != UNKNOWN
  }

  /** The four fields that the package-level variables feed. */
  function GlobalsOf(i: Info): Globals {
    Globals(i.version, i.commit, i.buildDate, i.branch)
  }

  /** The runtime fields of `i` are those the environment reports. */
  predicate HasRuntime(i: Info, env: Env) {
    i.goVersion == env.goVersion && i.platform == Platform(env) && i.compiler == env.compiler
  }

  function New(env: Env, version: string, commit: string, buildDate: string): (i: Info)
    ensures GlobalsOf(i) == Globals(version, commit, buildDate, "")
    ensures HasRuntime(i, env)
  {
    Info(version, commit, buildDate, "", env.goVersion, Platform(env), env.compiler)
  }

  function NewWithBranch(env: Env, version: string, commit: string, buildDate: string, branch: string): (i: Info)
    ensures GlobalsOf(i) == Globals(version, commit, buildDate, branch)
    ensures HasRuntime(i, env)
  {
    New(env, version, commit, buildDate).(branch := branch)
  }

  /** The record built from the package-level variables. */
  function Default(g: Globals, env: Env): (i: Info)
    ensures GlobalsOf(i) == g
    ensures HasRuntime(i, env)
  {
    NewWithBranch(env, g.version, g.commit, g.buildDate, g.branch)
  }

  // ---------------------------------------------------------------------------
  // Short commit and display string
  // ---------------------------------------------------------------------------

  /** At most the first seven characters of a present commit; "" for an absent one. */
  function ShortCommit(i: Info): (r: string)
    ensures |r| <= SHORT_COMMIT_LENGTH
    ensures r <= i.commit
    ensures r == "" <==> !IsSet(i.commit)
    ensures IsSet(i.commit) ==>
              |r| == if |i.commit| < SHORT_COMMIT_LENGTH then |i.commit| else SHORT_COMMIT_LENGTH
  {
    if i.commit == "" || i.commit == UNKNOWN then ""
    else if |i.commit| > SHORT_COMMIT_LENGTH then i.commit[..SHORT_COMMIT_LENGTH]
    else i.commit
  }

  /** The display string. It truncates the commit itself, as the source does,
      and the contract ties that truncation to ShortCommit. */
  function String(i: Info): (r: string)
    ensures !IsSet(i.commit) ==> r == i.version
    ensures IsSet(i.commit) ==> r == i.version + " (" + ShortCommit(i) + ")"
  {
    if i.commit != "" && i.commit != UNKNOWN then
      var short := if |i.commit| > SHORT_COMMIT_LENGTH then i.commit[..SHORT_COMMIT_LENGTH] else i.commit;
      i.version + " (" + short + ")"
    else
      i.version
  }

  /** The display string always starts with the version, and is exactly the
      version if and only if the commit is absent. */
  lemma StringIsVersionUnlessCommit(i: Info)
    ensures i.version <= String(i)
    ensures String(i) == i.version <==> !IsSet(i.commit)
  {
    if IsSet(i.commit) {
      var r := String(i);
      assert r == i.version + (" (" + ShortCommit(i) + ")");
      assert |r| > |i.version|;
    }
  }

  // ---------------------------------------------------------------------------
  // The full report
  // ---------------------------------------------------------------------------

  const VERSION_LABEL := "Version:    "
  const COMMIT_LABEL := "Commit:     "
  const BRANCH_LABEL := "Branch:     "
  const BUILT_LABEL := "Built:      "
  const GO_VERSION_LABEL := "Go version: "
  const PLATFORM_LABEL := "Platform:   "
  const COMPILER_LABEL := "Compiler:   "

  /** Every label is padded to this column width, so the values line up. */
  const LABEL_WIDTH := 12

  /** One candidate line of the report and whether it is printed. */
  datatype Line = Line(heading: string, value: string, shown: bool)

  function LineText(l: Line): string {
    l.heading + l.value + "\n"
  }

  /** The seven possible lines in their fixed order, each with its presence rule. */
  function Candidates(i: Info): seq<Line> {
    [ Line(VERSION_LABEL, i.version, true),
      Line(COMMIT_LABEL, i.commit, IsSet(i.commit)),
      Line(BRANCH_LABEL, i.branch, i.branch != ""),
      Line(BUILT_LABEL, i.buildDate, IsSet(i.buildDate)),
      Line(GO_VERSION_LABEL, i.goVersion, true),
      Line(PLATFORM_LABEL, i.platform, true),
      Line(COMPILER_LABEL, i.compiler, true) ]
  }

  /** The lines that are printed, in their original order. */
  function Shown(ls: seq<Line>): (r: seq<Line>)
    ensures |r| <= |ls|
    ensures forall k :: 0 <= k < |r| ==> r[k].shown
  {
    if ls == [] then []
    else if ls[0].shown then [ls[0]] + Shown(ls[1..])
    else Shown(ls[1..])
  }

  function Render(ls: seq<Line>): string {
    if ls == [] then "" else LineText(ls[0]) + Render(ls[1..])
  }

  /** The lines of the report produced by Full. */
  function Report(i: Info): seq<Line> {
    Shown(Candidates(i))
  }

  /** A line is printed exactly when it is a candidate marked as shown. */
  lemma {:induction false} ShownMember(ls: seq<Line>, l: Line)
    ensures l in Shown(ls) <==> l in ls && l.shown
  {
    if ls != [] {
      ShownMember(ls[1..], l);
      assert l in ls <==> l == ls[0] || l in ls[1..];
    }
  }

  lemma {:induction false} ShownAppend(a: seq<Line>, b: seq<Line>)
    ensures Shown(a + b) == Shown(a) + Shown(b)
  {
    if a != [] {
      assert (a + b)[0] == a[0];
      assert (a + b)[1..] == a[1..] + b;
      ShownAppend(a[1..], b);
      if a[0].shown {
        assert Shown(a + b) == [a[0]] + (Shown(a[1..]) + Shown(b));
        assert Shown(a) == [a[0]] + Shown(a[1..]);
      }
    } else {
      assert a + b == b;
    }
  }

  lemma {:induction false} RenderAppend(a: seq<Line>, b: seq<Line>)
    ensures Render(a + b) == Render(a) + Render(b)
  {
    if a != [] {
      assert (a + b)[0] == a[0];
      assert (a + b)[1..] == a[1..] + b;
      RenderAppend(a[1..], b);
      assert Render(a + b) == LineText(a[0]) + (Render(a[1..]) + Render(b));
    } else {
      assert a + b == b;
    }
  }

  /** The text a candidate contributes to the report. */
  function Optional(l: Line): string {
    if l.shown then LineText(l) else ""
  }

  lemma {:induction false} ShownOfShown(ls: seq<Line>)
    requires forall k :: 0 <= k < |ls| ==> ls[k].shown
    ensures Shown(ls) == ls
  {
    if ls != [] {
      ShownOfShown(ls[1..]);
      assert ls == [ls[0]] + ls[1..];
    }
  }

  lemma {:induction false} ShownOfHidden(ls: seq<Line>)
    requires forall k :: 0 <= k < |ls| ==> !ls[k].shown
    ensures Shown(ls) == []
  {
    if ls != [] {
      ShownOfHidden(ls[1..]);
    }
  }

  /** Appending one candidate adds its text exactly when it is shown. */
  lemma RenderShownSnoc(ls: seq<Line>, l: Line)
    ensures Render(Shown(ls + [l])) == Render(Shown(ls)) + Optional(l)
  {
    ShownAppend(ls, [l]);
    RenderAppend(Shown(ls), Shown([l]));
    assert [l][1..] == [];
    assert Shown([l]) == if l.shown then [l] else [];
    assert Render([l]) == LineText(l);
  }

  /** The report text is the seven candidates' contributions in order. */
  lemma ReportText(i: Info)
    ensures var c := Candidates(i);
            Render(Report(i)) == LineText(c[0]) + Optional(c[1]) + Optional(c[2]) + Optional(c[3])
                                 + LineText(c[4]) + LineText(c[5]) + LineText(c[6])
  {
    var c := Candidates(i);
    assert c[..1] == [c[0]];
    assert Render(Shown(c[..1])) == LineText(c[0]) by {
      RenderShownSnoc([], c[0]);
      assert [] + [c[0]] == [c[0]];
    }
    forall k | 1 <= k <= 6
      ensures Render(Shown(c[..k + 1])) == Render(Shown(c[..k])) + Optional(c[k])
    {
      assert c[..k + 1] == c[..k] + [c[k]];
      RenderShownSnoc(c[..k], c[k]);
    }
    assert c[..7] == c;
  }

  /** The report text, built by successive appends as in the source. */
  method Full(i: Info) returns (result: string)
    ensures result == Render(Report(i))
  {
    ghost var c := Candidates(i);
    result := VERSION_LABEL + i.version + "\n";
    assert result == LineText(c[0]);
    if i.commit != "" && i.commit != UNKNOWN {
      result := result + (COMMIT_LABEL + i.commit + "\n");
    } else {
      assert result + Optional(c[1]) == result;
    }
    assert result == LineText(c[0]) + Optional(c[1]);
    if i.branch != "" {
      result := result + (BRANCH_LABEL + i.branch + "\n");
    } else {
      assert result + Optional(c[2]) == result;
    }
    assert result == LineText(c[0]) + Optional(c[1]) + Optional(c[2]);
    if i.buildDate != "" && i.buildDate != UNKNOWN {
      result := result + (BUILT_LABEL + i.buildDate + "\n");
    } else {
      assert result + Optional(c[3]) == result;
    }
    assert result == LineText(c[0]) + Optional(c[1]) + Optional(c[2]) + Optional(c[3]);
    result := result + (GO_VERSION_LABEL + i.goVersion + "\n");
    result := result + (PLATFORM_LABEL + i.platform + "\n");
    result := result + (COMPILER_LABEL + i.compiler + "\n");
    ReportText(i);
  }

  /** The report is the version line, then the optional lines, then the three
      runtime lines. */
  lemma ReportShape(i: Info)
    ensures Report(i) == [Candidates(i)[0]] + Shown(Candidates(i)[1..4]) + Candidates(i)[4..]
  {
    var c := Candidates(i);
    assert c == [c[0]] + c[1..4] + c[4..];
    ShownAppend([c[0]] + c[1..4], c[4..]);
    ShownAppend([c[0]], c[1..4]);
    ShownOfShown([c[0]]);
    ShownOfShown(c[4..]);
  }

  /** The text of three lines in a row. */
  lemma RenderThree(e: Line, f: Line, g: Line)
    ensures Render([e, f, g]) == LineText(e) + LineText(f) + LineText(g)
  {
    assert [e, f, g][1..] == [f, g] && [f, g][1..] == [g] && [g][1..] == [];
    assert Render([g]) == LineText(g) + "";
    assert LineText(g) + "" == LineText(g);
    assert Render([f, g]) == LineText(f) + LineText(g);
    assert Render([e, f, g]) == LineText(e) + (LineText(f) + LineText(g));
  }

  /** A concatenation of three strings starts with the first and ends with the last. */
  lemma Framed(head: string, mid: string, tail: string)
    ensures head <= head + mid + tail
    ensures var r := head + mid + tail; |tail| <= |r| && r[|r| - |tail|..] == tail
  {
    var r := head + mid + tail;
    assert r == head + (mid + tail);
    assert forall k :: 0 <= k < |tail| ==> r[|r| - |tail|..][k] == tail[k];
  }

  /** The text of a version line, some middle lines and three closing lines. */
  lemma RenderFramed(a: Line, mid: seq<Line>, e: Line, f: Line, g: Line)
    ensures LineText(a) <= Render([a] + mid + [e, f, g])
    ensures var r := Render([a] + mid + [e, f, g]);
            var tail := LineText(e) + LineText(f) + LineText(g);
            |tail| <= |r| && r[|r| - |tail|..] == tail
  {
    RenderAppend([a] + mid, [e, f, g]);
    RenderAppend([a], mid);
    assert [a][1..] == [];
    assert Render([a]) == LineText(a) + "";
    assert LineText(a) + "" == LineText(a);
    RenderThree(e, f, g);
    Framed(LineText(a), Render(mid), LineText(e) + LineText(f) + LineText(g));
  }

  /** The text starts with the version line and ends with the Go version,
      platform and compiler lines, in that order. */
  lemma FullFramedByFixedLines(i: Info)
    ensures LineText(Line(VERSION_LABEL, i.version, true)) <= Render(Report(i))
    ensures var r := Render(Report(i));
            var tail := LineText(Line(GO_VERSION_LABEL, i.goVersion, true))
                        + LineText(Line(PLATFORM_LABEL, i.platform, true))
                        + LineText(Line(COMPILER_LABEL, i.compiler, true));
            |tail| <= |r| && r[|r| - |tail|..] == tail
  {
    var c := Candidates(i);
    ReportShape(i);
    assert c[4..] == [c[4], c[5], c[6]];
    RenderFramed(c[0], Shown(c[1..4]), c[4], c[5], c[6]);
  }

  /** Every printed line is the candidate at its heading's position. */
  lemma ReportMember(i: Info, l: Line)
    requires l in Report(i)
    ensures Rank(l.heading) < |Candidates(i)| && l == Candidates(i)[Rank(l.heading)]
    ensures l.shown
  {
    var c := Candidates(i);
    LabelsDistinct();
    ShownMember(c, l);
    var k :| 0 <= k < |c| && c[k] == l;
    assert Rank(c[k].heading) == k;
  }

  /** The version line and the three runtime lines are always printed. */
  lemma ReportFixedLines(i: Info)
    ensures Line(VERSION_LABEL, i.version, true) in Report(i)
    ensures Line(GO_VERSION_LABEL, i.goVersion, true) in Report(i)
    ensures Line(PLATFORM_LABEL, i.platform, true) in Report(i)
    ensures Line(COMPILER_LABEL, i.compiler, true) in Report(i)
  {
    var c := Candidates(i);
    ShownMember(c, c[0]);
    ShownMember(c, c[4]);
    ShownMember(c, c[5]);
    ShownMember(c, c[6]);
  }

  /** A Commit line is printed exactly when the commit is present, and it
      carries the full commit. */
  lemma ReportCommitLine(i: Info)
    ensures Line(COMMIT_LABEL, i.commit, true) in Report(i) <==> IsSet(i.commit)
    ensures forall l :: l in Report(i) && l.heading == COMMIT_LABEL ==> l.value == i.commit
  {
    LabelsDistinct();
    ShownMember(Candidates(i), Candidates(i)[1]);
    forall l | l in Report(i) ensures Rank(l.heading) < 7 && l == Candidates(i)[Rank(l.heading)] && l.shown {
      ReportMember(i, l);
    }
  }

  /** A Branch line is printed exactly when the branch is non-empty. */
  lemma ReportBranchLine(i: Info)
    ensures Line(BRANCH_LABEL, i.branch, true) in Report(i) <==> i.branch != ""
    ensures forall l :: l in Report(i) && l.heading == BRANCH_LABEL ==> l.value == i.branch
  {
    LabelsDistinct();
    ShownMember(Candidates(i), Candidates(i)[2]);
    forall l | l in Report(i) ensures Rank(l.heading) < 7 && l == Candidates(i)[Rank(l.heading)] && l.shown {
      ReportMember(i, l);
    }
  }

  /** A Built line is printed exactly when the build date is present, and it
      carries the date verbatim. */
  lemma ReportBuiltLine(i: Info)
    ensures Line(BUILT_LABEL, i.buildDate, true) in Report(i) <==> IsSet(i.buildDate)
    ensures forall l :: l in Report(i) && l.heading == BUILT_LABEL ==> l.value == i.buildDate
  {
    LabelsDistinct();
    ShownMember(Candidates(i), Candidates(i)[3]);
    forall l | l in Report(i) ensures Rank(l.heading) < 7 && l == Candidates(i)[Rank(l.heading)] && l.shown {
      ReportMember(i, l);
    }
  }

  /** The position of a label in the fixed order of the report. */
  function Rank(heading: string): nat {
    if heading == VERSION_LABEL then 0
    else if heading == COMMIT_LABEL then 1
    else if heading == BRANCH_LABEL then 2
    else if heading == BUILT_LABEL then 3
    else if heading == GO_VERSION_LABEL then 4
    else if heading == PLATFORM_LABEL then 5
    else if heading == COMPILER_LABEL then 6
    else 7
  }

  /** The headings of `ls` strictly increase under `rank`. */
  ghost predicate Ranked(ls: seq<Line>, rank: string -> nat) {
    forall j, k :: 0 <= j < k < |ls| ==> rank(ls[j].heading) < rank(ls[k].heading)
  }

  lemma LabelsDistinct()
    ensures Rank(VERSION_LABEL) == 0 && Rank(COMMIT_LABEL) == 1 && Rank(BRANCH_LABEL) == 2
    ensures Rank(BUILT_LABEL) == 3 && Rank(GO_VERSION_LABEL) == 4 && Rank(PLATFORM_LABEL) == 5
    ensures Rank(COMPILER_LABEL) == 6
  {
    assert VERSION_LABEL[0] == 'V';
    assert COMMIT_LABEL[0] == 'C' && COMMIT_LABEL[1] == 'o';
    assert BRANCH_LABEL[0] == 'B' && BRANCH_LABEL[1] == 'r';
    assert BUILT_LABEL[0] == 'B' && BUILT_LABEL[1] == 'u';
    assert GO_VERSION_LABEL[0] == 'G';
    assert PLATFORM_LABEL[0] == 'P';
    assert COMPILER_LABEL[0] == 'C' && COMPILER_LABEL[2] == 'm' && COMMIT_LABEL[2] == 'm';
    assert COMPILER_LABEL[3] == 'p' && COMMIT_LABEL[3] == 'm';
  }

  lemma {:induction false} ShownKeepsRanking(ls: seq<Line>, rank: string -> nat)
    requires Ranked(ls, rank)
    ensures Ranked(Shown(ls), rank)
  {
    if ls != [] {
      assert Ranked(ls[1..], rank) by {
        forall j, k | 0 <= j < k < |ls[1..]|
          ensures rank(ls[1..][j].heading) < rank(ls[1..][k].heading)
        {
          assert ls[1..][j] == ls[j + 1] && ls[1..][k] == ls[k + 1];
        }
      }
      ShownKeepsRanking(ls[1..], rank);
      if ls[0].shown {
        var rest := Shown(ls[1..]);
        forall l | l in rest ensures rank(ls[0].heading) < rank(l.heading) {
          ShownMember(ls[1..], l);
          var k :| 0 <= k < |ls[1..]| && ls[1..][k] == l;
          assert ls[k + 1] == l;
        }
        var r := [ls[0]] + rest;
        forall j, k | 0 <= j < k < |r| ensures rank(r[j].heading) < rank(r[k].heading) {
          if j == 0 {
            assert r[k] == rest[k - 1];
            assert r[k] in rest;
          } else {
            assert r[j] == rest[j - 1] && r[k] == rest[k - 1];
          }
        }
      }
    }
  }

  /** Whatever lines are printed, they keep the order Version, Commit, Branch,
      Built, Go version, Platform, Compiler. */
  lemma ReportOrdered(i: Info)
    ensures Ranked(Report(i), Rank)
  {
    CandidatesRanked(i);
    ShownKeepsRanking(Candidates(i), Rank);
  }

  /** Each candidate sits at its label's rank. */
  lemma CandidatesRanked(i: Info)
    ensures Ranked(Candidates(i), Rank)
  {
    var c := Candidates(i);
    LabelsDistinct();
    assert forall k :: 0 <= k < |c| ==> Rank(c[k].heading) == k;
  }

  /** Every label has the same width, so the values form one column. */
  lemma LabelsAligned(i: Info)
    ensures forall l :: l in Candidates(i) ==> |l.heading| == LABEL_WIDTH
  {
  }

  // ---------------------------------------------------------------------------
  // Field map and JSON key set
  // ---------------------------------------------------------------------------

  /** The JSON names of the seven fields, from the struct tags. */
  const TAGS: set<string> := {"version", "commit", "build_date", "branch", "go_version", "platform", "compiler"}

  /** The field a JSON name stands for; "" for any other name. */
  function Field(i: Info, tag: string): string {
    if tag == "version" then i.version
    else if tag == "commit" then i.commit
    else if tag == "build_date" then i.buildDate
    else if tag == "branch" then i.branch
    else if tag == "go_version" then i.goVersion
    else if tag == "platform" then i.platform
    else if tag == "compiler" then i.compiler
    else ""
  }

  /** The key/value pairs that encoding/json emits for an Info: "version"
      always, every other field under `omitempty`, that is, iff it is non-empty. */
  function JsonObject(i: Info): (m: map<string, string>)
    ensures m.Keys <= TAGS
    ensures "version" in m
    ensures forall k :: k in TAGS && k != "version" ==> (k in m <==> Field(i, k) != "")
    ensures forall k :: k in m ==> m[k] == Field(i, k)
  {
    map k | k in TAGS && (k == "version" || Field(i, k) != "") :: Field(i, k)
  }

  /** Decoding a JSON object into an Info: a missing key leaves its field "". */
  function FromJson(m: map<string, string>): Info {
    var get := (k: string) => if k in m then m[k] else "";
    Info(get("version"), get("commit"), get("build_date"), get("branch"),
         get("go_version"), get("platform"), get("compiler"))
  }

  /** Every field survives encoding and decoding: omitted fields were "" anyway. */
  lemma JsonRoundTrip(i: Info)
    ensures FromJson(JsonObject(i)) == i
  {
    var m := JsonObject(i);
    assert "commit" in TAGS && "build_date" in TAGS && "branch" in TAGS;
    assert "go_version" in TAGS && "platform" in TAGS && "compiler" in TAGS;
  }

  /** A commit of "unknown" is emitted in the JSON object, though Map and the
      headers treat it as absent. */
  lemma UnknownCommitReachesJson(i: Info)
    requires i.commit == UNKNOWN
    ensures "commit" in JsonObject(i) && JsonObject(i)["commit"] == UNKNOWN
    ensures !IsSet(i.commit)
  {
    assert "commit" in TAGS;
  }

  /** The field map, built by inserting the optional keys one by one. */
  method Map(i: Info) returns (m: map<string, string>)
    ensures "version" in m && "go_version" in m && "platform" in m && "compiler" in m
    ensures "commit" in m <==> IsSet(i.commit)
    ensures "branch" in m <==> i.branch != ""
    ensures "build_date" in m <==> IsSet(i.buildDate)
    ensures m.Keys <= TAGS
    ensures forall k :: k in m ==> m[k] == Field(i, k)
    ensures forall k :: k in m && m[k] != "" ==> k in JsonObject(i) && JsonObject(i)[k] == m[k]
    ensures forall k :: k in JsonObject(i) && k !in m ==> JsonObject(i)[k] == UNKNOWN
  {
    m := map[
      "version" := i.version,
      "go_version" := i.goVersion,
      "platform" := i.platform,
      "compiler" := i.compiler
    ];
    if i.commit != "" && i.commit != UNKNOWN {
      m := m["commit" := i.commit];
    }
    if i.branch != "" {
      m := m["branch" := i.branch];
    }
    if i.buildDate != "" && i.buildDate != UNKNOWN {
      m := m["build_date" := i.buildDate];
    }
  }

  // ---------------------------------------------------------------------------
  // Validation and the development flag
  // ---------------------------------------------------------------------------

  datatype Outcome = Pass | Fail(message: string)

  const VERSION_REQUIRED := "version is required"

  function Validate(i: Info): (r: Outcome)
    ensures r.Fail? <==> i.version == ""
    ensures r.Fail? ==> r.message == VERSION_REQUIRED
  {
    if i.version == "" then Fail(VERSION_REQUIRED) else Pass
  }

  /** Only the version decides validity. */
  lemma ValidateOnlyReadsVersion(i: Info, j: Info)
    requires i.version == j.version
    ensures Validate(i) == Validate(j)
  {
  }

  const DEV_VERSIONS: set<string> := {"dev", "development", ""}

  function IsDev(i: Info): (r: bool)
    ensures r <==> i.version in DEV_VERSIONS
  {
    i.version == "dev" || i.version == "development" || i.version == ""
  }

  /** A record that fails validation is a development build. */
  lemma InvalidIsDev(i: Info)
    ensures Validate(i).Fail? ==> IsDev(i)
  {
  }

  // ---------------------------------------------------------------------------
  // Build timestamp
  // ---------------------------------------------------------------------------

  /** Go's layout strings: time.RFC3339, time.RFC1123 and time.RFC1123Z. */
  const RFC3339 := "2006-01-02T15:04:05Z07:00"
  const RFC1123 := "Mon, 02 Jan 2006 15:04:05 MST"
  const RFC1123Z := "Mon, 02 Jan 2006 15:04:05 -0700"

  /** The layouts tried after RFC 3339; the first of them is RFC 3339 again. */
  const FALLBACK_LAYOUTS: seq<string> :=
    ["2006-01-02T15:04:05Z07:00", "2006-01-02 15:04:05", "2006-01-02", RFC1123, RFC1123Z]

  /** Every layout BuildTimestamp tries, in order. */
  const PARSE_LAYOUTS: seq<string> := [RFC3339] + FALLBACK_LAYOUTS

  /** The result of the first layout under which `s` parses, if any. */
  function FirstParse<T>(layouts: seq<string>, s: string, parse: (string, string) -> Option<T>): (r: Option<T>)
    ensures r.None? <==> forall k :: 0 <= k < |layouts| ==> parse(layouts[k], s).None?
    ensures r.Some? ==> exists k :: 0 <= k < |layouts| && parse(layouts[k], s) == r
                                    && forall j :: 0 <= j < k ==> parse(layouts[j], s).None?
    decreases |layouts|
  {
    if layouts == [] then None
    else if parse(layouts[0], s).Some? then parse(layouts[0], s)
    else
      var r := FirstParse(layouts[1..], s, parse);
      assert forall k :: 1 <= k < |layouts| ==> layouts[k] == layouts[1..][k - 1];
      assert r.Some? ==> exists k :: 1 <= k < |layouts| && parse(layouts[k], s) == r
                                     && forall j :: 0 <= j < k ==> parse(layouts[j], s).None?;
      r
  }

  lemma FallbacksFollowRfc3339()
    ensures PARSE_LAYOUTS[0] == RFC3339 && PARSE_LAYOUTS[1..] == FALLBACK_LAYOUTS
  {
  }

  /** A layout that accepts the text decides the result. */
  lemma FirstParseHit<T>(layouts: seq<string>, s: string, parse: (string, string) -> Option<T>)
    requires layouts != [] && parse(layouts[0], s).Some?
    ensures FirstParse(layouts, s, parse) == parse(layouts[0], s)
  {
  }

  /** A layout that rejects the text passes the decision to the rest. */
  lemma FirstParseSkip<T>(layouts: seq<string>, s: string, parse: (string, string) -> Option<T>)
    requires layouts != [] && parse(layouts[0], s).None?
    ensures FirstParse(layouts, s, parse) == FirstParse(layouts[1..], s, parse)
  {
  }

  /** The build date as a time: `zero` when the date is absent or no layout
      accepts it, otherwise the first successful parse. `parse(layout, text)`
      stands for time.Parse. */
  method BuildTimestamp<T>(i: Info, zero: T, parse: (string, string) -> Option<T>) returns (t: T)
    ensures !IsSet(i.buildDate) ==> t == zero
    ensures IsSet(i.buildDate) ==> t == FirstParse(PARSE_LAYOUTS, i.buildDate, parse).GetOr(zero)
  {
    if i.buildDate == "" || i.buildDate == UNKNOWN {
      return zero;
    }
    var first := parse(RFC3339, i.buildDate);
    if first.Some? {
      FirstParseHit(PARSE_LAYOUTS, i.buildDate, parse);
      return first.value;
    }
    FirstParseSkip(PARSE_LAYOUTS, i.buildDate, parse);
    var formats := FALLBACK_LAYOUTS;
    FallbacksFollowRfc3339();
    var k := 0;
    while k < |formats|
      invariant 0 <= k <= |formats|
      invariant FirstParse(PARSE_LAYOUTS, i.buildDate, parse) == FirstParse(formats[k..], i.buildDate, parse)
    {
      var attempt := parse(formats[k], i.buildDate);
      if attempt.Some? {
        FirstParseHit(formats[k..], i.buildDate, parse);
        return attempt.value;
      }
      FirstParseSkip(formats[k..], i.buildDate, parse);
      assert formats[k..][1..] == formats[k + 1..];
      k := k + 1;
    }
    return zero;
  }

  /** Retrying RFC 3339 as the first fallback layout never changes the result. */
  lemma RetriedLayoutIsRedundant<T>(s: string, parse: (string, string) -> Option<T>)
    ensures FirstParse(PARSE_LAYOUTS, s, parse) == FirstParse(FALLBACK_LAYOUTS, s, parse)
  {
    assert PARSE_LAYOUTS[0] == FALLBACK_LAYOUTS[0];
    assert PARSE_LAYOUTS[1..] == FALLBACK_LAYOUTS;
  }

  // ---------------------------------------------------------------------------
  // Builder
  // ---------------------------------------------------------------------------

  /** A fluent accumulator over one record. */
  class Builder {
    var info: Info

    /** NewBuilder: runtime fields as New fills them, the other four empty. */
    constructor (env: Env)
      ensures GlobalsOf(info) == Globals("", "", "", "")
      ensures HasRuntime(info, env)
    {
      info := Info("", "", "", "", env.goVersion, Platform(env), env.compiler);
    }

    method WithVersion(version: string) returns (b: Builder)
      modifies this
      ensures b == this
      ensures info == old(info).(version := version)
    {
      info := info.(version := version);
      b := this;
    }

    method WithCommit(commit: string) returns (b: Builder)
      modifies this
      ensures b == this
      ensures info == old(info).(commit := commit)
    {
      info := info.(commit := commit);
      b := this;
    }

    method WithBuildDate(buildDate: string) returns (b: Builder)
      modifies this
      ensures b == this
      ensures info == old(info).(buildDate := buildDate)
    {
      info := info.(buildDate := buildDate);
      b := this;
    }

    method WithBranch(branch: string) returns (b: Builder)
      modifies this
      ensures b == this
      ensures info == old(info).(branch := branch)
    {
      info := info.(branch := branch);
      b := this;
    }

    method Build() returns (r: Info)
      ensures r == info
    {
      r := info;
    }
  }

  /** The full fluent chain yields the same record as direct construction. */
  method BuildChain(env: Env, version: string, commit: string, buildDate: string, branch: string)
    returns (r: Info)
    ensures r == NewWithBranch(env, version, commit, buildDate, branch)
  {
    var b := new Builder(env);
    b := b.WithVersion(version);
    b := b.WithCommit(commit);
    b := b.WithBuildDate(buildDate);
    b := b.WithBranch(branch);
    r := b.Build();
  }

  // ---------------------------------------------------------------------------
  // Expected values from the package's tests
  // ---------------------------------------------------------------------------

  lemma ShortCommitExamples(env: Env)
    ensures ShortCommit(New(env, "", "abc1234567890def", "")) == "abc1234"
    ensures ShortCommit(New(env, "", "abc1234", "")) == "abc1234"
    ensures ShortCommit(New(env, "", "abc", "")) == "abc"
    ensures ShortCommit(New(env, "", "", "")) == ""
    ensures ShortCommit(New(env, "", "unknown", "")) == ""
  {
  }

  lemma StringExamples(env: Env)
    ensures String(New(env, "1.0.0", "abc1234567890", "")) == "1.0.0 (abc1234)"
    ensures String(New(env, "1.0.0", "abc", "")) == "1.0.0 (abc)"
    ensures String(New(env, "1.0.0", "", "")) == "1.0.0"
    ensures String(New(env, "1.0.0", "unknown", "")) == "1.0.0"
  {
  }

  lemma IsDevExamples(i: Info)
    ensures IsDev(i.(version := "dev")) && IsDev(i.(version := "development")) && IsDev(i.(version := ""))
    ensures !IsDev(i.(version := "1.0.0")) && !IsDev(i.(version := "v1.0.0"))
  {
  }

  /** With nothing overridden at build time the default record is a valid
      development build whose display string is just "dev". */
  lemma LinkerDefaultsRecord(env: Env)
    ensures LINKER_DEFAULTS.version != "" && LINKER_DEFAULTS.commit != "" && LINKER_DEFAULTS.buildDate != ""
    ensures IsDev(Default(LINKER_DEFAULTS, env))
    ensures Validate(Default(LINKER_DEFAULTS, env)) == Pass
    ensures String(Default(LINKER_DEFAULTS, env)) == "dev"
    ensures ShortCommit(Default(LINKER_DEFAULTS, env)) == ""
  {
  }

  /** The test record with every field set prints all seven lines. */
  lemma FullExample(env: Env)
    ensures var i := NewWithBranch(env, "1.0.0", "abc123", "2025-01-01T00:00:00Z", "main");
            Report(i) == Candidates(i)
  {
    var i := NewWithBranch(env, "1.0.0", "abc123", "2025-01-01T00:00:00Z", "main");
    ShownOfShown(Candidates(i));
  }

  /** A record with only the version and runtime fields has no optional lines. */
  lemma FullMinimalExample(i: Info)
    requires i.commit == "" && i.branch == "" && i.buildDate == ""
    ensures Report(i) == [Candidates(i)[0]] + Candidates(i)[4..]
  {
    ReportShape(i);
    var c := Candidates(i);
    ShownOfHidden(c[1..4]);
  }
}
