/** The shipping information page (src/pages/ShippingInfo.jsx): a tracking
    form whose submit refuses a blank number and otherwise clears it, and a
    row of zone tabs whose panel shows the zone found by the selected id. */
module ShippingInfo {
  import opened Seqs
  import opened Text

  datatype Zone = Zone(id: string, name: string, regions: seq<string>, note: string)

  const ShippingZones: seq<Zone> := [
    Zone("domestic", "Domestic (US)", ["United States", "Alaska", "Hawaii", "Puerto Rico"], "Standard shipping rates apply"),
    Zone("canada", "Canada", ["All Canadian provinces and territories"], "Additional customs fees may apply"),
    Zone("international", "International", ["Europe", "Asia", "Australia", "South America"],
      "Extended delivery times and customs fees apply")
  ]

  function ZoneIs(id: string): Zone -> bool
  {
    (z: Zone) => z.id == id
  }

  /** `shippingZones.find(zone => zone.id === selectedZone)`. */
  function FindZone(zones: seq<Zone>, id: string): (r: Option<Zone>)
    ensures r.None? <==> forall i :: 0 <= i < |zones| ==> zones[i].id != id
    ensures r.Some? ==> r.value in zones && r.value.id == id
  {
    Find(zones, ZoneIs(id))
  }

  /** With distinct ids the lookup finds exactly the zone carrying the id. */
  lemma FindDistinct(zones: seq<Zone>, i: nat)
    requires i < |zones|
    requires forall j, k :: 0 <= j < k < |zones| ==> zones[j].id != zones[k].id
    ensures FindZone(zones, zones[i].id) == Some(zones[i])
  {
    var r := Find(zones, ZoneIs(zones[i].id));
    var k :| 0 <= k < |zones| && zones[k] == r.value && ZoneIs(zones[i].id)(r.value)
      && forall j :: 0 <= j < k ==> !ZoneIs(zones[i].id)(zones[j]);
  }

  /** The three ids are distinct and the initial 'domestic' is among them. */
  lemma ZoneIds()
    ensures forall j, k :: 0 <= j < k < |ShippingZones| ==> ShippingZones[j].id != ShippingZones[k].id
    ensures ShippingZones[0].id == "domestic"
  {
  }

  /** Every tab's panel shows that tab's zone, and the initial selection
      shows the domestic zone. */
  lemma EveryZoneFound(i: nat)
    requires i < |ShippingZones|
    ensures FindZone(ShippingZones, ShippingZones[i].id) == Some(ShippingZones[i])
    ensures FindZone(ShippingZones, "domestic") == Some(ShippingZones[0])
  {
    ZoneIds();
    FindDistinct(ShippingZones, i);
    FindDistinct(ShippingZones, 0);
  }

  class ShippingInfoPage {
    var trackingNumber: string
    var selectedZone: string

    /** The panel renders when the lookup finds a zone. */
    ghost predicate Valid()
      reads this
    {
      FindZone(ShippingZones, selectedZone).Some?
    }

    constructor()
      ensures trackingNumber == "" && selectedZone == "domestic"
      ensures Valid()
    {
      trackingNumber := "";
      selectedZone := "domestic";
      EveryZoneFound(0);
    }

    /** The tracking input. */
    method SetTrackingNumber(text: string)
      modifies this
      ensures trackingNumber == text && selectedZone == old(selectedZone)
    {
      trackingNumber := text;
    }

    /** `handleTrackOrder`: a number that trims to nothing shows the error toast
        and stays; any other starts the lookup toast and is cleared. */
    method TrackOrder() returns (accepted: bool)
      modifies this
      ensures accepted <==> !IsBlank(old(trackingNumber))
      ensures trackingNumber == if accepted then "" else old(trackingNumber)
      ensures selectedZone == old(selectedZone)
    {
      if IsBlank(trackingNumber) {
        return false;
      }
      trackingNumber := "";
      return true;
    }

    /** A zone tab: the selection becomes that tab's zone, whose panel shows. */
    method SelectZone(i: nat)
      requires i < |ShippingZones|
      modifies this
      ensures selectedZone == ShippingZones[i].id && trackingNumber == old(trackingNumber)
      ensures Valid() && FindZone(ShippingZones, selectedZone) == Some(ShippingZones[i])
    {
      var z := ShippingZones[i];
      EveryZoneFound(i);
      selectedZone := z.id;
    }

    /** The zone the panel shows. */
    function CurrentZone(): (r: Zone)
      requires Valid()
      reads this
      ensures r in ShippingZones && r.id == selectedZone
    {
      FindZone(ShippingZones, selectedZone).value
    }
  }
}
