// generation/model.py: a generated planet.

module GenModel {
  import opened Base

  datatype Planet = Planet(
    planetType: string,
    habitability: real,
    resourcePotentials: Dict<CommodityId, real>,
    tags: seq<string>)
}
