/** The cleaning model shared by region recognition, chain solving and plan assembly. */
module CleaningModel {
  type Id = string

  datatype Point = Point(x: real, y: real)

  datatype ModelPoint = ModelPoint(id: Id, sequence: nat, captureType: string, at: Point)

  datatype SubArea = SubArea(id: Id, pointIds: seq<Id>, confirmed: bool)

  datatype Connector = Connector(id: Id, startPointId: Id, endPointId: Id, from: Id, to: Id, confirmed: bool)

  datatype Group = Group(id: Id, points: seq<ModelPoint>, subAreas: seq<SubArea>, connectors: seq<Connector>)
}
