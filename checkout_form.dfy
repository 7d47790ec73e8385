/**
  The four-step checkout: account fields, address fields, payment fields and a
  confirmation step, then the order that creates the customer and books the
  first maintenance visit one week out. The payment fields are collected but
  never sent anywhere.
 */
module CheckoutForm {
  import opened Wrappers
  import opened Records
  import Text
  import Tables
  import Metrics
  import PlanService
  import CustomerService
  import AppointmentService
  import CustomerDashboard

  datatype CustomerData = CustomerData(name: string, email: string, phone: string, address: Address)

  datatype PaymentData = PaymentData(cardNumber: string, expiryDate: string, cvv: string, nameOnCard: string)

  const BlankCustomer := CustomerData("", "", "", Address("", "", "", ""))
  const BlankPayment := PaymentData("", "", "", "")

  const Steps: seq<string> := ["Account Info", "Address", "Payment", "Confirmation"]

  /** One week in milliseconds: `7 * 24 * 60 * 60 * 1000`. */
  const Week := 7 * 24 * 60 * 60 * 1000

  /** The field names the form passes to its three change handlers. */
  datatype CustomerField = Name | Email | Phone
  datatype AddressField = Street | City | State | ZipCode
  datatype PaymentField = CardNumber | ExpiryDate | Cvv | NameOnCard

  function CustomerValue(d: CustomerData, f: CustomerField): string {
    match f
    case Name => d.name
    case Email => d.email
    case Phone => d.phone
  }

  function AddressValue(a: Address, f: AddressField): string {
    match f
    case Street => a.street
    case City => a.city
    case State => a.state
    case ZipCode => a.zipCode
  }

  function PaymentValue(p: PaymentData, f: PaymentField): string {
    match f
    case CardNumber => p.cardNumber
    case ExpiryDate => p.expiryDate
    case Cvv => p.cvv
    case NameOnCard => p.nameOnCard
  }

  /** `handleCustomerDataChange`: `{ ...prev, [field]: value }`. */
  function WithCustomerField(d: CustomerData, f: CustomerField, v: string): (r: CustomerData)
    ensures CustomerValue(r, f) == v
    ensures forall g :: g != f ==> CustomerValue(r, g) == CustomerValue(d, g)
    ensures r.address == d.address
  {
    match f
    case Name => d.(name := v)
    case Email => d.(email := v)
    case Phone => d.(phone := v)
  }

  /** `handleAddressChange`: `{ ...prev, address: { ...prev.address, [field]: value } }`. */
  function WithAddressField(d: CustomerData, f: AddressField, v: string): (r: CustomerData)
    ensures AddressValue(r.address, f) == v
    ensures forall g :: g != f ==> AddressValue(r.address, g) == AddressValue(d.address, g)
    ensures forall g :: CustomerValue(r, g) == CustomerValue(d, g)
  {
    var a := d.address;
    var a' := match f
      case Street => a.(street := v)
      case City => a.(city := v)
      case State => a.(state := v)
      case ZipCode => a.(zipCode := v);
    d.(address := a')
  }

  /** `handlePaymentDataChange`: `{ ...prev, [field]: value }`. */
  function WithPaymentField(p: PaymentData, f: PaymentField, v: string): (r: PaymentData)
    ensures PaymentValue(r, f) == v
    ensures forall g :: g != f ==> PaymentValue(r, g) == PaymentValue(p, g)
  {
    match f
    case CardNumber => p.(cardNumber := v)
    case ExpiryDate => p.(expiryDate := v)
    case Cvv => p.(cvv := v)
    case NameOnCard => p.(nameOnCard := v)
  }

  /**
    The handlers behave as field updates: writing back what a field holds
    changes nothing, and of two writes to one field the second wins.
   */
  lemma {:induction false} FieldUpdateLaws(d: CustomerData, p: PaymentData, v: string, w: string)
    ensures forall f :: WithCustomerField(d, f, CustomerValue(d, f)) == d
    ensures forall f :: WithCustomerField(WithCustomerField(d, f, v), f, w) == WithCustomerField(d, f, w)
    ensures forall f :: WithAddressField(d, f, AddressValue(d.address, f)) == d
    ensures forall f :: WithAddressField(WithAddressField(d, f, v), f, w) == WithAddressField(d, f, w)
    ensures forall f :: WithPaymentField(p, f, PaymentValue(p, f)) == p
    ensures forall f :: WithPaymentField(WithPaymentField(p, f, v), f, w) == WithPaymentField(p, f, w)
  {
    forall f: AddressField
      ensures WithAddressField(d, f, AddressValue(d.address, f)) == d
      ensures WithAddressField(WithAddressField(d, f, v), f, w) == WithAddressField(d, f, w)
    {
      match f
      case Street =>
      case City =>
      case State =>
      case ZipCode =>
    }
  }

  /** `handleNext`: one step forward, except on the last step. */
  function NextStep(step: int): (s: int)
    ensures step < |Steps| ==> s == step + 1
    ensures step >= |Steps| ==> s == step
  {
    if step < |Steps| then step + 1 else step
  }

  /** `handlePrevious`: one step back, except on the first step. */
  function PreviousStep(step: int): (s: int)
    ensures step > 1 ==> s == step - 1
    ensures step <= 1 ==> s == step
  {
    if step > 1 then step - 1 else step
  }

  /** Next and Previous undo each other between the first and the last step, and both stay within the steps. */
  lemma StepsRoundTrip(step: int)
    requires 1 <= step <= |Steps|
    ensures step < |Steps| ==> PreviousStep(NextStep(step)) == step
    ensures step > 1 ==> NextStep(PreviousStep(step)) == step
    ensures 1 <= NextStep(step) <= |Steps| && 1 <= PreviousStep(step) <= |Steps|
  {
  }

  /** `if (!selectedPlan) navigate("/plans")`: without a plan the form sends the visitor back to the plan list. */
  function EntryRedirect(selectedPlan: Option<Plan>): (to: Option<string>)
    ensures to.Some? <==> selectedPlan.None?
    ensures to.Some? ==> to.value == "/plans"
  {
    if selectedPlan.None? then Some("/plans") else None
  }

  /** The customer record the order sends to `customerService.create` (which then assigns `Id`). */
  function NewCustomer(d: CustomerData, plan: Plan, now: int): (c: Customer)
    ensures c.name == d.name && c.email == d.email && c.phone == d.phone && c.address == d.address
    ensures c.planId == plan.Id && c.createdAt == now
    ensures Text.StartsWith(c.stripeCustomerId, "stripe_")
  {
    Customer(0, d.name, d.email, d.phone, d.address, plan.Id, "stripe_" + Text.IntToString(now), now)
  }

  /** The first maintenance visit: scheduled one week after the order, with technician "tech_1". */
  function FirstVisit(customer: Customer, plan: Plan, now: int): (a: Appointment)
    ensures a.customerId == customer.Id && a.planId == plan.Id
    ensures a.scheduledDate == now + Week && a.status == "Scheduled"
    ensures a.technicianId == "tech_1" && a.notes == "Initial maintenance visit"
  {
    Appointment(0, customer.Id, plan.Id, now + Week, "Scheduled", "tech_1", "Initial maintenance visit")
  }

  /** Where the order leads: the dashboard, with the new customer in the navigation state. */
  datatype Navigation = Navigation(path: string, newCustomer: Customer)

  /**
    The order's outcome seen from the customer dashboard: with the plan in the
    plan table, the dashboard opens on the new customer and their plan, and
    the first visit is among their appointments and is their next one
    whenever it is the soonest upcoming.
   */
  lemma {:induction false} OrderShowsOnDashboard(
    customers: seq<Customer>, plans: seq<Plan>, apts: seq<Appointment>, c: Customer, visit: Appointment, now: int)
    requires c.planId in PlanService.Ids(plans) && visit.customerId == c.Id
    requires visit.scheduledDate > now && visit.status == "Scheduled"
    ensures var v := CustomerDashboard.LoadDashboard(Some(c), customers, plans, apts + [visit]);
      v.Loaded? && v.customer == c && v.plan.Id == c.planId && visit in v.appointments
      && CustomerDashboard.NextAppointment(v.appointments, now).Some?
  {
    var v := CustomerDashboard.LoadDashboard(Some(c), customers, plans, apts + [visit]);
    assert visit in apts + [visit];
    assert visit in v.appointments;
    assert Metrics.IsUpcoming(visit, now);
  }

  /** The checkout form's state. */
  class Checkout {
    const plan: Plan
    var step: int
    var customer: CustomerData
    var payment: PaymentData

    /** The step number is one of the steps. */
    predicate Valid()
      reads this
    {
      1 <= step <= |Steps|
    }

    /** The form opens on step 1 with blank fields, for the plan handed over by the plan list. */
    constructor (selectedPlan: Plan)
      ensures plan == selectedPlan && step == 1 && customer == BlankCustomer && payment == BlankPayment
      ensures Valid()
    {
      plan := selectedPlan;
      step := 1;
      customer := BlankCustomer;
      payment := BlankPayment;
    }

    method Next()
      requires Valid()
      modifies this
      ensures step == NextStep(old(step)) && Valid()
      ensures customer == old(customer) && payment == old(payment)
    {
      if step < |Steps| {
        step := step + 1;
      }
    }

    method Previous()
      requires Valid()
      modifies this
      ensures step == PreviousStep(old(step)) && Valid()
      ensures step == old(step) <==> old(PreviousDisabled())
      ensures customer == old(customer) && payment == old(payment)
    {
      if step > 1 {
        step := step - 1;
      }
    }

    method ChangeCustomerField(f: CustomerField, v: string)
      modifies this
      ensures customer == WithCustomerField(old(customer), f, v)
      ensures step == old(step) && payment == old(payment)
    {
      customer := WithCustomerField(customer, f, v);
    }

    method ChangeAddressField(f: AddressField, v: string)
      modifies this
      ensures customer == WithAddressField(old(customer), f, v)
      ensures step == old(step) && payment == old(payment)
    {
      customer := WithAddressField(customer, f, v);
    }

    method ChangePaymentField(f: PaymentField, v: string)
      modifies this
      ensures payment == WithPaymentField(old(payment), f, v)
      ensures step == old(step) && customer == old(customer)
    {
      payment := WithPaymentField(payment, f, v);
    }

    /** The primary button: "Complete Order" on the last step, "Next" before it. */
    function PrimaryButton(): (caption: string)
      reads this
      ensures caption == "Complete Order" <==> step == |Steps|
      ensures caption in {"Complete Order", "Next"}
    {
      if step == |Steps| then "Complete Order" else "Next"
    }

    /** Previous is disabled on the first step: exactly where pressing it would not move. */
    function PreviousDisabled(): (disabled: bool)
      reads this
      ensures Valid() ==> (disabled <==> PreviousStep(step) == step)
      ensures Valid() ==> (disabled <==> step == 1)
    {
      step == 1
    }

    /**
      `handleSubmit`: creates the customer from the account and address fields,
      then the first visit for the new customer's `Id`, and leads to the
      dashboard with the new customer. The payment fields play no part.
     */
    method Submit(customers: CustomerService.CustomerTable, appointments: AppointmentService.AppointmentTable, now: int)
      returns (nav: Navigation)
      modifies customers, appointments
      ensures customers.rows == old(customers.rows) + [nav.newCustomer]
      ensures nav.newCustomer == NewCustomer(customer, plan, now).(Id := Tables.NextId(CustomerService.Ids(old(customers.rows))))
      ensures appointments.rows == old(appointments.rows)
        + [FirstVisit(nav.newCustomer, plan, now).(Id := Tables.NextId(AppointmentService.Ids(old(appointments.rows))))]
      ensures nav.path == "/dashboard"
      ensures old(customers.Valid()) ==> customers.Valid()
      ensures old(appointments.Valid()) ==> appointments.Valid()
    {
      var c := customers.Create(NewCustomer(customer, plan, now), now);
      var a := appointments.Create(FirstVisit(c, plan, now));
      nav := Navigation("/dashboard", c);
    }
  }
}
