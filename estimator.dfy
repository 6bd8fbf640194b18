/**
 * The estimate calculator: a fixed bill of materials and a labor-hour figure
 * computed from six quantities of a JSON request body.
 *
 * JSON numbers are modelled as exact reals, so the labor hours here are the exact
 * sum of the multipliers, before any binary-float arithmetic or rounding.
 */
module Estimator {
  import opened Wrappers

  /**
   * The request body, reduced to the six fields the handler reads; a field the
   * client left out is `None`.
   */
  datatype RequestBody = RequestBody(
    squareFeet: Option<real>,
    outletCount: Option<real>,
    lightingFixtureCount: Option<real>,
    switchCount: Option<real>,
    panelCount: Option<real>,
    emtConduitFeet: Option<real>)

  /** The six quantities read from a request, each 0 when its field is absent. */
  datatype EstimateRequest = EstimateRequest(
    squareFeet: real,
    outletCount: real,
    lightingFixtureCount: real,
    switchCount: real,
    panelCount: real,
    emtConduitFeet: real)

  datatype MaterialLineItem = MaterialLineItem(name: string, quantity: real, unit: string)

  datatype EstimateResponse = EstimateResponse(
    materials: seq<MaterialLineItem>,
    laborHours: real,
    assumptions: string)

  const Assumptions: string := "Estimated using NEC-based commercial rules."

  /** Feet of 12AWG THHN wire allowed per duplex outlet. */
  const WireFeetPerOutlet: real := 50.0

  /** `data.get(key, 0)`: the value when the key is present, 0 otherwise. */
  function OrZero(field: Option<real>): (v: real)
    ensures field.Some? ==> v == field.value
    ensures field.None? ==> v == 0.0
  {
    match field
    case Some(v) => v
    case None => 0.0
  }

  /** The quantities the handler reads, absent fields defaulting to 0. */
  function ReadRequest(data: RequestBody): (req: EstimateRequest)
    ensures req.squareFeet == OrZero(data.squareFeet)
    ensures req.outletCount == OrZero(data.outletCount)
    ensures req.lightingFixtureCount == OrZero(data.lightingFixtureCount)
    ensures req.switchCount == OrZero(data.switchCount)
    ensures req.panelCount == OrZero(data.panelCount)
    ensures req.emtConduitFeet == OrZero(data.emtConduitFeet)
  {
    EstimateRequest(
      OrZero(data.squareFeet),
      OrZero(data.outletCount),
      OrZero(data.lightingFixtureCount),
      OrZero(data.switchCount),
      OrZero(data.panelCount),
      OrZero(data.emtConduitFeet))
  }

  /**
   * The bill of materials, in its fixed order: one line per counted quantity,
   * then the wire, 50 feet per outlet.
   */
  function Materials(req: EstimateRequest): (items: seq<MaterialLineItem>)
    ensures |items| == 6
    ensures [items[0].quantity, items[1].quantity, items[2].quantity, items[3].quantity, items[4].quantity]
      == [req.outletCount, req.lightingFixtureCount, req.switchCount, req.panelCount, req.emtConduitFeet]
    ensures items[5].quantity == WireFeetPerOutlet * req.outletCount
  {
    [ MaterialLineItem("Duplex outlet", req.outletCount, "each"),
      MaterialLineItem("Lighting fixture", req.lightingFixtureCount, "each"),
      MaterialLineItem("Single pole switch", req.switchCount, "each"),
      MaterialLineItem("Electrical panel", req.panelCount, "each"),
      MaterialLineItem("EMT conduit", req.emtConduitFeet, "feet"),
      MaterialLineItem("12AWG THHN wire", req.outletCount * WireFeetPerOutlet, "feet") ]
  }

  /**
   * Labor hours, unrounded: half an hour per outlet, three quarters per fixture,
   * 0.3 per switch, 8 per panel and one hour per 20 feet of conduit; in twentieths
   * of an hour that is 10, 15, 6, 160 and 1.
   */
  function LaborHours(req: EstimateRequest): (hours: real)
    ensures 20.0 * hours
      == 10.0 * req.outletCount + 15.0 * req.lightingFixtureCount + 6.0 * req.switchCount
         + 160.0 * req.panelCount + req.emtConduitFeet
  {
    req.outletCount * 0.5 + req.lightingFixtureCount * 0.75 + req.switchCount * 0.3
    + req.panelCount * 8.0 + req.emtConduitFeet / 20.0
  }

  /** The estimate for one request body. */
  function GenerateEstimate(data: RequestBody): (r: EstimateResponse)
    ensures |r.materials| == 6
    ensures r.materials[5].quantity == WireFeetPerOutlet * OrZero(data.outletCount)
    ensures 20.0 * r.laborHours
      == 10.0 * OrZero(data.outletCount) + 15.0 * OrZero(data.lightingFixtureCount)
         + 6.0 * OrZero(data.switchCount) + 160.0 * OrZero(data.panelCount)
         + OrZero(data.emtConduitFeet)
    ensures r.assumptions == Assumptions
  {
    var req := ReadRequest(data);
    EstimateResponse(Materials(req), LaborHours(req), Assumptions)
  }

  /**
   * The bill of materials always lists the same six items in the same order and
   * units, and each quantity is the matching input field (the wire: 50 feet per outlet).
   */
  lemma MaterialsLayout(data: RequestBody)
    ensures var items := GenerateEstimate(data).materials;
      |items| == 6
      && [items[0].name, items[1].name, items[2].name, items[3].name, items[4].name, items[5].name]
         == ["Duplex outlet", "Lighting fixture", "Single pole switch", "Electrical panel",
             "EMT conduit", "12AWG THHN wire"]
      && (forall k :: 0 <= k < 4 ==> items[k].unit == "each")
      && items[4].unit == "feet" && items[5].unit == "feet"
      && [items[0].quantity, items[1].quantity, items[2].quantity, items[3].quantity, items[4].quantity]
         == [OrZero(data.outletCount), OrZero(data.lightingFixtureCount),
             OrZero(data.switchCount), OrZero(data.panelCount),
             OrZero(data.emtConduitFeet)]
  {
  }

  /** The wire quantity depends on the outlet count alone. */
  lemma WireDependsOnlyOnOutlets(d1: RequestBody, d2: RequestBody)
    requires OrZero(d1.outletCount) == OrZero(d2.outletCount)
    ensures GenerateEstimate(d1).materials[5] == GenerateEstimate(d2).materials[5]
  {
  }

  /** `squareFeet` is read but changes nothing: whatever it holds, or if it is absent, the estimate is the same. */
  lemma SquareFeetHasNoEffect(data: RequestBody, v: Option<real>)
    ensures GenerateEstimate(data.(squareFeet := v)) == GenerateEstimate(data)
  {
  }

  /** A request with every field absent gives zero of every item and zero labor. */
  lemma EmptyRequestIsZero()
    ensures var r := GenerateEstimate(RequestBody(None, None, None, None, None, None));
      |r.materials| == 6
      && (forall k :: 0 <= k < 6 ==> r.materials[k].quantity == 0.0)
      && r.laborHours == 0.0
  {
  }

  /** 10 outlets, 5 fixtures, 8 switches, 1 panel and 100 feet of conduit: 24.15 hours and 500 feet of wire. */
  lemma WorkedEstimate()
    ensures var r := GenerateEstimate(RequestBody(None, Some(10.0), Some(5.0), Some(8.0), Some(1.0), Some(100.0)));
      r.laborHours == 24.15 && r.materials[5].quantity == 500.0
  {
  }
}
