/** The Abstract Factory example: each logistics factory creates a transport and a packaging of
    one family, road or sea. */
module AbstractLogistics {

  datatype Family = Road | Sea

  datatype Transport = TruckTransport | SeaTransport

  /** `deliver` for each transport. */
  function Deliver(t: Transport): string
  {
    match t
    case TruckTransport => "Delivering by land in a truck."
    case SeaTransport => "Delivering by sea in a ship."
  }

  datatype Packaging = BoxPackaging | ContainerPackaging

  /** `package` for each packaging. */
  function Package(p: Packaging): string
  {
    match p
    case BoxPackaging => "Packing in a box."
    case ContainerPackaging => "Packing in a container."
  }

  function TransportFamily(t: Transport): Family
  {
    match t
    case TruckTransport => Road
    case SeaTransport => Sea
  }

  function PackagingFamily(p: Packaging): Family
  {
    match p
    case BoxPackaging => Road
    case ContainerPackaging => Sea
  }

  datatype Factory = RoadLogisticsFactory | SeaLogisticsFactory

  function FactoryFamily(f: Factory): Family
  {
    match f
    case RoadLogisticsFactory => Road
    case SeaLogisticsFactory => Sea
  }

  /** `create_transport`: a transport of the factory's own family. */
  function CreateTransport(f: Factory): (t: Transport)
    ensures TransportFamily(t) == FactoryFamily(f)
  {
    match f
    case RoadLogisticsFactory => TruckTransport
    case SeaLogisticsFactory => SeaTransport
  }

  /** `create_packaging`: a packaging of the factory's own family. */
  function CreatePackaging(f: Factory): (p: Packaging)
    ensures PackagingFamily(p) == FactoryFamily(f)
  {
    match f
    case RoadLogisticsFactory => BoxPackaging
    case SeaLogisticsFactory => ContainerPackaging
  }

  /** Each family has exactly one transport and one packaging, so a factory's products are the
      ones of its family and never a mixed pair. */
  lemma ProductsMatch(f: Factory, t: Transport, p: Packaging)
    ensures t == CreateTransport(f) <==> TransportFamily(t) == FactoryFamily(f)
    ensures p == CreatePackaging(f) <==> PackagingFamily(p) == FactoryFamily(f)
  {
  }

  /** The factory tests: the products' texts. */
  method FactoryScenario() returns (roadDeliver: string, roadPackage: string,
                                    seaDeliver: string, seaPackage: string)
    ensures roadDeliver == "Delivering by land in a truck." && roadPackage == "Packing in a box."
    ensures seaDeliver == "Delivering by sea in a ship." && seaPackage == "Packing in a container."
  {
    roadDeliver := Deliver(CreateTransport(RoadLogisticsFactory));
    roadPackage := Package(CreatePackaging(RoadLogisticsFactory));
    seaDeliver := Deliver(CreateTransport(SeaLogisticsFactory));
    seaPackage := Package(CreatePackaging(SeaLogisticsFactory));
  }
}
