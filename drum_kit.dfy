/** The drum kit a sequencer is given: an ordered list of named samples. The
    sequencer derives two tables from it, the drum name of every pattern row
    and the name-to-sample record the player bank is built from. */
module DrumKit {

  datatype Drum = Drum(name: string, source: string)

  /** The drum name of every pattern row, in kit order. */
  function DrumPositions(kit: seq<Drum>): (names: seq<string>)
    ensures |names| == |kit|
    ensures forall k :: 0 <= k < |kit| ==> names[k] == kit[k].name
  {
    if kit == [] then [] else [kit[0].name] + DrumPositions(kit[1..])
  }

  /** The set of names that occur in the kit. */
  function KitNames(kit: seq<Drum>): set<string> {
    set k | 0 <= k < |kit| :: kit[k].name
  }

  /** Entry `k` is the last entry of the kit that carries its name. */
  predicate LastWithName(kit: seq<Drum>, k: nat)
    requires k < |kit|
  {
    forall j :: k < j < |kit| ==> kit[j].name != kit[k].name
  }

  /** The record handed to the player bank: the kit folded from left to
      right into a map, each entry adding or overwriting the key `name` with
      its `source`. */
  function PlayersRecord(kit: seq<Drum>): map<string, string> {
    if kit == [] then map[] else
    var last := kit[|kit| - 1];
    PlayersRecord(kit[..|kit| - 1])[last.name := last.source]
  }

  /** The record's keys are exactly the kit's names. */
  lemma {:induction false} PlayersRecordKeys(kit: seq<Drum>)
    ensures PlayersRecord(kit).Keys == KitNames(kit)
  {
    if kit != [] {
      var init := kit[..|kit| - 1];
      PlayersRecordKeys(init);
      assert KitNames(kit) == KitNames(init) + {kit[|kit| - 1].name} by {
        forall n | n in KitNames(kit) ensures n in KitNames(init) + {kit[|kit| - 1].name} {
          var k :| 0 <= k < |kit| && kit[k].name == n;
          if k < |kit| - 1 {
            assert init[k] == kit[k];
          }
        }
        forall n | n in KitNames(init) ensures n in KitNames(kit) {
          var k :| 0 <= k < |init| && init[k].name == n;
          assert kit[k] == init[k];
        }
      }
    }
  }

  /** A later entry overrides an earlier one with the same name: each name
      maps to the source of the last entry that carries it. */
  lemma {:induction false} PlayersRecordLastWins(kit: seq<Drum>, k: nat)
    requires k < |kit| && LastWithName(kit, k)
    ensures kit[k].name in PlayersRecord(kit)
    ensures PlayersRecord(kit)[kit[k].name] == kit[k].source
  {
    var init := kit[..|kit| - 1];
    if k < |kit| - 1 {
      assert init[k] == kit[k];
      assert LastWithName(init, k) by {
        forall j | k < j < |init| ensures init[j].name != init[k].name {
          assert init[j] == kit[j];
        }
      }
      PlayersRecordLastWins(init, k);
    }
  }

  /** Every drum position names a player, so looking up a row's player never
      fails; the player found plays the last kit sample with that name. */
  lemma PositionsResolve(kit: seq<Drum>, k: nat)
    requires k < |kit|
    ensures DrumPositions(kit)[k] in PlayersRecord(kit)
    ensures forall l :: k <= l < |kit| && kit[l].name == kit[k].name && LastWithName(kit, l) ==>
              PlayersRecord(kit)[DrumPositions(kit)[k]] == kit[l].source
  {
    PlayersRecordKeys(kit);
    assert DrumPositions(kit)[k] == kit[k].name;
    forall l | k <= l < |kit| && kit[l].name == kit[k].name && LastWithName(kit, l)
      ensures PlayersRecord(kit)[kit[k].name] == kit[l].source
    {
      PlayersRecordLastWins(kit, l);
    }
  }
}
