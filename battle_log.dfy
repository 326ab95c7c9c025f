/**
 * The battle-log panel: the five most recent entries, newest first, with the
 * newest highlighted (src/features/battle/components/BattleLog.tsx).
 */
module BattleLogView {
  import opened Common
  import opened BattleTypes

  function Reverse<T>(s: seq<T>): seq<T>
  {
    if s == [] then [] else [s[|s| - 1]] + Reverse(s[..|s| - 1])
  }

  lemma {:induction false} ReverseSpec<T>(s: seq<T>)
    ensures |Reverse(s)| == |s|
    ensures forall k :: 0 <= k < |s| ==> Reverse(s)[k] == s[|s| - 1 - k]
  {
    if s != [] {
      ReverseSpec(s[..|s| - 1]);
    }
  }

  const RecentCount: nat := 5

  /** `recentLogs`: a reversed copy of the log, cut to its first five entries. */
  function RecentLogs(logs: seq<BattleLogEntry>): (r: seq<BattleLogEntry>)
    ensures |r| == Min(RecentCount, |logs|)
    ensures forall i :: 0 <= i < |r| ==> r[i] == logs[|logs| - 1 - i]
  {
    ReverseSpec(logs);
    Reverse(logs)[..Min(RecentCount, |logs|)]
  }

  /** What the panel shows: a placeholder, or rows each marked highlighted or not. */
  datatype View = Placeholder | Rows(rows: seq<(BattleLogEntry, bool)>)

  function LogView(logs: seq<BattleLogEntry>): View
  {
    var recent := RecentLogs(logs);
    if |recent| == 0 then Placeholder
    else Rows(seq(|recent|, i requires 0 <= i < |recent| => (recent[i], i == 0)))
  }

  /** The placeholder shows exactly for an empty log; otherwise only the newest entry, at the top, is highlighted. */
  lemma LogViewShape(logs: seq<BattleLogEntry>)
    ensures LogView(logs).Placeholder? <==> logs == []
    ensures LogView(logs).Rows? ==>
      var rows := LogView(logs).rows;
      |rows| == Min(RecentCount, |logs|)
      && rows[0].0 == logs[|logs| - 1]
      && forall i :: 0 <= i < |rows| ==> (rows[i].1 <==> i == 0) && rows[i].0 == logs[|logs| - 1 - i]
  {
  }
}
