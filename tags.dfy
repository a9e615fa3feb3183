/**
  How every screen of the order tool reads the carrier's shipment number back out of
  an order's tags: the last tag that mentions "Cargo" wins, and the number is the
  text after its first ':' (up to the next ':').
*/
module Tags {
  import opened Js

  const CargoMark := "Cargo"

  /** Tag `k` mentions Cargo and no later tag does. */
  ghost predicate LastMention(tags: seq<string>, k: int)
  {
    0 <= k < |tags| && Contains(tags[k], CargoMark) &&
    forall j :: k < j < |tags| ==> !Contains(tags[j], CargoMark)
  }

  /** The last tag mentioning "Cargo", if any. */
  function LastCargoTag(tags: seq<string>): (r: Option<string>)
    ensures r.None? <==> forall k :: 0 <= k < |tags| ==> !Contains(tags[k], CargoMark)
    ensures r.Some? ==> exists k :: LastMention(tags, k) && tags[k] == r.value
  {
    if tags == [] then None
    else if Contains(Last(tags), CargoMark) then Some(Last(tags))
    else
      var r := LastCargoTag(tags[..|tags| - 1]);
      assert r.Some? ==> exists k :: LastMention(tags, k) && tags[k] == r.value by {
        if r.Some? {
          var k :| LastMention(tags[..|tags| - 1], k) && tags[k] == r.value;
          assert LastMention(tags, k);
        }
      }
      r
  }

  /** The shipment number shown for an order: `t.split(':')[1]` of the last Cargo
      tag; `None` when no tag mentions Cargo or that tag has no ':'. */
  function CargoNumber(tags: seq<string>): Option<string>
  {
    match LastCargoTag(tags)
    case None => None
    case Some(t) => Part(t, ':', 1)
  }

  /** The tag scan as the screens run it: every tag is visited, and each one that
      mentions Cargo sets the flag and overwrites the number. */
  method ScanCargo(tags: seq<string>) returns (involved: bool, cargoN: Option<string>)
    ensures involved <==> exists k :: 0 <= k < |tags| && Contains(tags[k], CargoMark)
    ensures cargoN == CargoNumber(tags)
    ensures !involved ==> cargoN.None?
  {
    involved := false;
    cargoN := None;
    var i := 0;
    while i < |tags|
      invariant 0 <= i <= |tags|
      invariant involved == LastCargoTag(tags[..i]).Some?
      invariant cargoN == CargoNumber(tags[..i])
    {
      ContainsIndexOf(tags[i], CargoMark);
      assert tags[..i + 1][..i] == tags[..i];
      if IndexOf(tags[i], CargoMark, 0) > -1 {
        involved := true;
        cargoN := Part(tags[i], ':', 1);
      }
      i := i + 1;
    }
    assert tags[..i] == tags;
  }
}
