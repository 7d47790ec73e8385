/**
  The records the services keep. Timestamps are milliseconds since the epoch
  (the app stores them as ISO strings), prices are integer amounts in cents.
 */
module Records {
  import Text

  datatype Address = Address(street: string, city: string, state: string, zipCode: string)

  datatype Customer = Customer(
    Id: int,
    name: string,
    email: string,
    phone: string,
    address: Address,
    planId: int,
    stripeCustomerId: string,
    createdAt: int)

  datatype Plan = Plan(
    Id: int,
    name: string,
    price: int,
    interval: string,
    features: seq<string>,
    serviceFrequency: string,
    isActive: bool)

  datatype Appointment = Appointment(
    Id: int,
    customerId: int,
    planId: int,
    scheduledDate: int,
    status: string,
    technicianId: string,
    notes: string)

  datatype Company = Company(Id: int, name: string, embedCode: string)

  /** The error a service throws when no record has the requested `Id`. */
  datatype Error = NotFound(entity: string, id: int) {
    /** `${Entity} with ID ${Id} not found`. */
    function Message(): string {
      entity + " with ID " + Text.IntToString(id) + " not found"
    }
  }
}
