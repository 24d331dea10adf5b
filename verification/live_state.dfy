/** The historical live state the API rebuilds from stored relay
    messages when a session's agent is no longer in memory: the messages
    grouped into one entry per relay station. */
module LiveState {
  import opened Util
  import opened OrderedTable

  // ------------------------------------------------------- station grouping

  /** A stored relay message; `stationId` is `None` when the row has none. */
  datatype StoredMessage = StoredMessage(stationId: Option<string>, messageId: string, content: string)

  const DefaultStation := "default-station"
  const StationNamePrefix := "\U{4E2D}\U{7EE7}\U{7AD9} "

  function StationOf(m: StoredMessage): string {
    m.stationId.GetOr(DefaultStation)
  }

  function AtStation(id: string): StoredMessage -> bool {
    (m: StoredMessage) => StationOf(m) == id
  }

  /** The `stations_map` loop: one entry per station id in order of first
      appearance, holding that station's messages. */
  function GroupMessages(msgs: seq<StoredMessage>): (t: Table<seq<StoredMessage>>)
    ensures Valid(t)
    decreases |msgs|
  {
    if |msgs| == 0 then Empty()
    else
      var t := GroupMessages(msgs[..|msgs| - 1]);
      var m := msgs[|msgs| - 1];
      var k := StationOf(m);
      Put(t, k, (if k in t.rows then t.rows[k] else []) + [m])
  }

  /** The station of each message, in order. */
  function Stations(msgs: seq<StoredMessage>): (ids: seq<string>)
    ensures |ids| == |msgs| && forall i :: 0 <= i < |msgs| ==> ids[i] == StationOf(msgs[i])
  {
    seq(|msgs|, i requires 0 <= i < |msgs| => StationOf(msgs[i]))
  }

  lemma StationsSnoc(init: seq<StoredMessage>, m: StoredMessage)
    ensures Stations(init + [m]) == Stations(init) + [StationOf(m)]
  {
  }

  lemma AbsentStationEmpty(msgs: seq<StoredMessage>, k: string)
    requires k !in Stations(msgs)
    ensures Filter(msgs, AtStation(k)) == []
  {
    forall i | 0 <= i < |msgs|
      ensures !AtStation(k)(msgs[i])
    {
      assert Stations(msgs)[i] == StationOf(msgs[i]);
    }
    FilterKeepsNone(msgs, AtStation(k));
  }

  lemma FilterOne(m: StoredMessage, k: string)
    ensures Filter([m], AtStation(k)) == if StationOf(m) == k then [m] else []
  {
    FilterCons([m], AtStation(k));
  }

  /** There is a group exactly for each station that occurs. */
  lemma {:induction false} GroupKeys(msgs: seq<StoredMessage>)
    ensures forall k :: k in GroupMessages(msgs).rows <==> k in Stations(msgs)
    decreases |msgs|
  {
    if |msgs| > 0 {
      var init := msgs[..|msgs| - 1];
      var m := msgs[|msgs| - 1];
      assert msgs == init + [m];
      GroupKeys(init);
      StationsSnoc(init, m);
    }
  }

  /** Each group holds exactly its station's messages, in their original
      order. */
  lemma {:induction false} GroupContents(msgs: seq<StoredMessage>)
    ensures var t := GroupMessages(msgs);
            forall k :: k in t.rows ==> t.rows[k] == Filter(msgs, AtStation(k))
    decreases |msgs|
  {
    if |msgs| > 0 {
      var init := msgs[..|msgs| - 1];
      var m := msgs[|msgs| - 1];
      assert msgs == init + [m];
      GroupContents(init);
      GroupKeys(init);
      forall k | k in GroupMessages(msgs).rows
        ensures GroupMessages(msgs).rows[k] == Filter(msgs, AtStation(k))
      {
        GroupContentsStep(init, m, k);
      }
    }
  }

  lemma GroupContentsStep(init: seq<StoredMessage>, m: StoredMessage, k: string)
    requires forall k :: k in GroupMessages(init).rows ==> GroupMessages(init).rows[k] == Filter(init, AtStation(k))
    requires forall k :: k in GroupMessages(init).rows <==> k in Stations(init)
    requires k in GroupMessages(init + [m]).rows
    ensures GroupMessages(init + [m]).rows[k] == Filter(init + [m], AtStation(k))
  {
    var msgs := init + [m];
    assert msgs[..|msgs| - 1] == init;
    var t := GroupMessages(init);
    var k0 := StationOf(m);
    var prior := if k0 in t.rows then t.rows[k0] else [];
    assert GroupMessages(msgs).rows == t.rows[k0 := prior + [m]];
    FilterConcat(init, [m], AtStation(k));
    FilterOne(m, k);
    if k == k0 {
      if k !in t.rows {
        AbsentStationEmpty(init, k);
      }
      assert prior == Filter(init, AtStation(k));
    } else {
      assert GroupMessages(msgs).rows[k] == t.rows[k];
    }
  }

  /** A station entry of the historical live state. */
  datatype StationGroup = StationGroup(stationId: string, name: string, phase: int, participatingAgents: seq<string>,
                                       isActive: bool, messages: seq<StoredMessage>)

  /** `list(stations_map.values())`. */
  function StationGroups(msgs: seq<StoredMessage>): (gs: seq<StationGroup>)
    ensures |gs| == |GroupMessages(msgs).keys|
    ensures forall i :: 0 <= i < |gs| ==>
              gs[i].stationId == GroupMessages(msgs).keys[i]
              && gs[i].name == StationNamePrefix + Take(gs[i].stationId, 8)
              && !gs[i].isActive && gs[i].phase == 0 && gs[i].participatingAgents == []
  {
    var t := GroupMessages(msgs);
    seq(|t.keys|, i requires 0 <= i < |t.keys| && Valid(t) =>
      StationGroup(t.keys[i], StationNamePrefix + Take(t.keys[i], 8), 0, [], false, t.rows[t.keys[i]]))
  }

  /** The groups are distinct stations, every message lands in the group
      of its station, in input order, and only there. */
  lemma StationGroupsPartition(msgs: seq<StoredMessage>)
    ensures var gs := StationGroups(msgs);
            (forall i, j :: 0 <= i < j < |gs| ==> gs[i].stationId != gs[j].stationId)
            && (forall i :: 0 <= i < |gs| ==> gs[i].messages == Filter(msgs, AtStation(gs[i].stationId)))
            && (forall j :: 0 <= j < |msgs| ==> exists i :: 0 <= i < |gs| && gs[i].stationId == StationOf(msgs[j]))
  {
    var t := GroupMessages(msgs);
    GroupKeys(msgs);
    GroupContents(msgs);
    var gs := StationGroups(msgs);
    forall j | 0 <= j < |msgs|
      ensures exists i :: 0 <= i < |gs| && gs[i].stationId == StationOf(msgs[j])
    {
      assert Stations(msgs)[j] == StationOf(msgs[j]);
      assert StationOf(msgs[j]) in Stations(msgs);
      assert StationOf(msgs[j]) in t.rows;
      var i :| 0 <= i < |t.keys| && t.keys[i] == StationOf(msgs[j]);
      assert gs[i].stationId == StationOf(msgs[j]);
    }
  }
}
