/** The `GatewayCommand` message of proto/vehicle_gateway.proto: one constructor per member
    of its `command` oneof, the fields in the order of the message. Coordinates are `real`. */
module Commands {

  datatype GatewayCommand =
    | TripInit(vin: string, requestId: int,
               startLong: real, startLat: real, endLong: real, endLat: real)
    | TripMove(vin: string, tripId: int, longitude: real, latitude: real)
    | TripPark(vin: string, longitude: real, latitude: real)
    | OrderUpdateLocation(vin: string)
    | OrderUpdateStatus(vin: string)
    | TripCancel(vin: string, requestId: int)
}
