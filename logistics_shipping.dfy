// logistics/shipping.py: a shipment in transit along a lane.

module LogisticsShipping {
  import opened Base

  datatype Shipment = Shipment(
    commodity: CommodityId,
    quantity: real,
    source: WorldId,
    destination: WorldId,
    etaTick: int,
    laneId: Option<string>)
}
