/** The fixed comment header of a machine-planned route. */
module RouteHeader {
  import opened Text

  /** The serializer's header, line by line, each line in pieces. */
  const HEADER_PIECES: seq<seq<string>> := [
    ["# A machine-planned ", "chain-walk route ", "(--plan-route / cargo ", "xtask"],
    ["# plan-chain-hop), not a ", "hand-authored one."],
    ["#"],
    ["# A bounded, cost-ordered ", "walk over this map's live ", "collision model"],
    ["# ", "(ohl_engine::route_plan, ", "the same edge model ", "--reachability-report"],
    ["# triages with) found a ", "path from the arrival ", "point this route starts at"],
    ["# to the map's own ", "level-change trigger, ", "straightened it into runs,"],
    ["# converted the runs into ", "the lines below, and ", "replayed them in-process"],
    ["# until the level change ", "actually fired. The route ", "below is the one that"],
    ["# fired; nothing else was ", "written."],
    ["#"],
    ["# Commands only: no name, ", "path or coordinate from ", "any payload appears"],
    ["# here, and none was ever ", "printed ", "(docs/CLEAN_ROOM.md). The ", "planner's own"],
    ["# search coordinates ", "never left the process ", "that produced this file."],
    ["#"],
    ["# A line's leading number ", "is a count of ticks, each ", "one CAPTURE_STEP"],
    ["# (1/60 s) of simulated ", "time -- not seconds."],
    []]

  function Glued(pieces: seq<string>): string {
    if pieces == [] then "" else pieces[0] + Glued(pieces[1..])
  }

  function HeaderLines(): (lines: seq<string>)
    ensures |lines| == 18
  {
    seq(18, i requires 0 <= i < 18 => Glued(HEADER_PIECES[i]))
  }

  /** The header every candidate must start with. */
  function Header(): string {
    Unlines(HeaderLines())
  }

  predicate Unbroken(s: string) {
    forall k | 0 <= k < |s| :: s[k] != '\n' && s[k] != '\r'
  }

  predicate AllUnbroken(pieces: seq<string>) {
    pieces != [] ==> Unbroken(pieces[0]) && AllUnbroken(pieces[1..])
  }

  lemma {:induction false} GluedUnbroken(pieces: seq<string>)
    requires AllUnbroken(pieces)
    ensures Unbroken(Glued(pieces))
  {
    if pieces != [] {
      GluedUnbroken(pieces[1..]);
    }
  }

  lemma HeaderUnbroken0()
    ensures AllUnbroken(HEADER_PIECES[0])
    ensures AllUnbroken(HEADER_PIECES[1])
  {
  }

  lemma HeaderUnbroken1()
    ensures AllUnbroken(HEADER_PIECES[2])
    ensures AllUnbroken(HEADER_PIECES[3])
  {
  }

  lemma HeaderUnbroken2()
    ensures AllUnbroken(HEADER_PIECES[4])
    ensures AllUnbroken(HEADER_PIECES[5])
  {
  }

  lemma HeaderUnbroken3()
    ensures AllUnbroken(HEADER_PIECES[6])
    ensures AllUnbroken(HEADER_PIECES[7])
  {
  }

  lemma HeaderUnbroken4()
    ensures AllUnbroken(HEADER_PIECES[8])
    ensures AllUnbroken(HEADER_PIECES[9])
  {
  }

  lemma HeaderUnbroken5()
    ensures AllUnbroken(HEADER_PIECES[10])
    ensures AllUnbroken(HEADER_PIECES[11])
  {
  }

  lemma HeaderUnbroken6()
    ensures AllUnbroken(HEADER_PIECES[12])
    ensures AllUnbroken(HEADER_PIECES[13])
  {
  }

  lemma HeaderUnbroken7()
    ensures AllUnbroken(HEADER_PIECES[14])
    ensures AllUnbroken(HEADER_PIECES[15])
  {
  }

  lemma HeaderUnbroken8()
    ensures AllUnbroken(HEADER_PIECES[16])
    ensures AllUnbroken(HEADER_PIECES[17])
  {
  }

  lemma HeaderPiecesUnbroken(i: nat)
    requires i < 18
    ensures AllUnbroken(HEADER_PIECES[i])
  {
    hide AllUnbroken;
    HeaderUnbroken0();
    HeaderUnbroken1();
    HeaderUnbroken2();
    HeaderUnbroken3();
    HeaderUnbroken4();
    HeaderUnbroken5();
    HeaderUnbroken6();
    HeaderUnbroken7();
    HeaderUnbroken8();
  }

  lemma HeaderLine(i: nat)
    requires i < 18
    ensures Unbroken(HeaderLines()[i])
    ensures HeaderLines()[i] == "" || HeaderLines()[i][0] == '#'
  {
    HeaderPiecesUnbroken(i);
    GluedUnbroken(HEADER_PIECES[i]);
    assert HEADER_PIECES[i] == [] || HEADER_PIECES[i][0][0] == '#';
  }
}
