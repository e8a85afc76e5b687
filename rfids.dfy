// core/convinience.py: `get_all_rfids`, every rfid in use, members' first and
// then gear's, with duplicates kept.
module Rfids {

  function AllRfids(memberRfids: seq<string>, gearRfids: seq<string>): (all: seq<string>)
    ensures |all| == |memberRfids| + |gearRfids|
    ensures forall i :: 0 <= i < |memberRfids| ==> all[i] == memberRfids[i]
    ensures forall j :: 0 <= j < |gearRfids| ==> all[|memberRfids| + j] == gearRfids[j]
  {
    memberRfids + gearRfids
  }

  /** An rfid is in use exactly when a member or a gear item carries it. */
  lemma AllRfidsMembership(memberRfids: seq<string>, gearRfids: seq<string>, rfid: string)
    ensures rfid in AllRfids(memberRfids, gearRfids) <==> rfid in memberRfids || rfid in gearRfids
  {
    var all := AllRfids(memberRfids, gearRfids);
    if rfid in all {
      var k :| 0 <= k < |all| && all[k] == rfid;
      if k >= |memberRfids| {
        assert gearRfids[k - |memberRfids|] == rfid;
      }
    }
    if rfid in gearRfids {
      var j :| 0 <= j < |gearRfids| && gearRfids[j] == rfid;
      assert all[|memberRfids| + j] == rfid;
    }
  }
}
