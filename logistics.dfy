/** The Factory Method example: each logistics kind decides which transport it creates, and the
    shared `plan_delivery` describes the delivery of whatever transport that is. */
module FactoryLogistics {

  datatype Transport = TruckTransport | ShipTransport

  /** `deliver`: a fixed description per transport. */
  function Deliver(t: Transport): string
  {
    match t
    case TruckTransport => "Delivering by land in a truck."
    case ShipTransport => "Delivering by sea in a ship."
  }

  datatype Logistics = RoadLogistics | ShipLogistics

  /** The factory method `create_transport`. */
  function CreateTransport(l: Logistics): Transport
  {
    match l
    case RoadLogistics => TruckTransport
    case ShipLogistics => ShipTransport
  }

  const Prefix := "Logistics: "

  /** `plan_delivery`: the shared step, written once for every logistics kind. */
  function PlanDelivery(l: Logistics): (plan: string)
  {
    Prefix + Deliver(CreateTransport(l))
  }

  /** Different transports deliver differently. */
  lemma DeliverInjective(s: Transport, t: Transport)
    ensures Deliver(s) == Deliver(t) <==> s == t
  {
    if s != t {
      assert |Deliver(s)| != |Deliver(t)|;
    }
  }

  /** The plan names the transport the factory method created, and no other: reading the text
      after the prefix identifies the transport. */
  lemma PlanNamesCreatedTransport(l: Logistics, t: Transport)
    ensures PlanDelivery(l) == Prefix + Deliver(t) <==> t == CreateTransport(l)
  {
    DeliverInjective(t, CreateTransport(l));
    if PlanDelivery(l) == Prefix + Deliver(t) {
      assert PlanDelivery(l)[|Prefix|..] == Deliver(CreateTransport(l));
      assert (Prefix + Deliver(t))[|Prefix|..] == Deliver(t);
    }
  }

  lemma RoadPlanText()
    ensures PlanDelivery(RoadLogistics) == "Logistics: Delivering by land in a truck."
  {
  }

  lemma ShipPlanText()
    ensures PlanDelivery(ShipLogistics) == "Logistics: Delivering by sea in a ship."
  {
  }

  /** The two logistics plans read as the tests expect. */
  method PlanScenario() returns (road: string, ship: string)
    ensures road == "Logistics: Delivering by land in a truck."
    ensures ship == "Logistics: Delivering by sea in a ship."
  {
    road := PlanDelivery(RoadLogistics);
    ship := PlanDelivery(ShipLogistics);
    RoadPlanText();
    ShipPlanText();
  }
}
