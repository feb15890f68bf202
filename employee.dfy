/**
 * The employee record of `ccpayroll/models/employee.py`: its pay calculation and its
 * conversion to and from the dictionary stored in the database.
 */
module Employees {
  import opened Wrappers
  import opened Values

  /**
   * An employee. The text fields keep whatever value the dictionary held, as the
   * dataclass does not check their types.
   */
  datatype Employee = Employee(
    name: Value,
    position: Value,
    installCrew: int,
    payType: Value,
    rate: Option<real>,
    salary: Option<real>,
    commissionRate: Option<real>,
    id: Value)

  /** The result of `calculate_pay`. */
  datatype Pay = Pay(regular: real, overtime: real, total: real)

  /** Python truthiness of an optional amount: present and non-zero. */
  predicate Set(x: Option<real>)
  {
    x.Some? && x.value != 0.0
  }

  const Hourly := Text("hourly")
  const Salaried := Text("salary")

  /**
   * `calculate_pay(regular_hours, overtime_hours)`: hourly employees earn their rate per
   * regular hour and time and a half per overtime hour, salaried employees a fifty-second
   * of their salary, everybody else nothing.
   */
  function CalculatePay(e: Employee, regularHours: real, overtimeHours: real): (p: Pay)
    ensures p.total == p.regular + p.overtime
    ensures e.payType == Hourly && Set(e.rate) ==>
              p.regular == regularHours * e.rate.value && p.overtime == overtimeHours * e.rate.value * 1.5
    ensures e.payType == Salaried && Set(e.salary) ==> p.regular == e.salary.value / 52.0 && p.overtime == 0.0
    ensures !(e.payType == Hourly && Set(e.rate)) && !(e.payType == Salaried && Set(e.salary)) ==>
              p.regular == 0.0 && p.overtime == 0.0
  {
    var regular :=
      if e.payType == Hourly && Set(e.rate) then regularHours * e.rate.value
      else if e.payType == Salaried && Set(e.salary) then e.salary.value / 52.0
      else 0.0;
    var overtime :=
      if e.payType == Hourly && Set(e.rate) then overtimeHours * e.rate.value * 1.5
      else 0.0;
    Pay(regular, overtime, regular + overtime)
  }

  /** With the default of no overtime, an hourly employee earns hours times rate. */
  lemma DefaultOvertime(e: Employee, hours: real)
    requires e.payType == Hourly && Set(e.rate)
    ensures CalculatePay(e, hours, 0.0).total == hours * e.rate.value
  {
  }

  /** A salaried employee's pay does not depend on the hours worked. */
  lemma SalaryIgnoresHours(e: Employee, r1: real, o1: real, r2: real, o2: real)
    requires e.payType == Salaried
    ensures CalculatePay(e, r1, o1) == CalculatePay(e, r2, o2)
  {
  }

  /** Commission employees, and anyone without a rate or salary, are paid nothing here. */
  lemma UnpaidTypes(e: Employee, regularHours: real, overtimeHours: real)
    requires (e.payType != Hourly && e.payType != Salaried) || (e.payType == Hourly && !Set(e.rate))
             || (e.payType == Salaried && !Set(e.salary))
    ensures CalculatePay(e, regularHours, overtimeHours) == Pay(0.0, 0.0, 0.0)
  {
  }

  /** Hourly pay is additive in the hours: two stretches of work pay what their sum pays. */
  lemma HourlyAdditive(e: Employee, r1: real, o1: real, r2: real, o2: real)
    requires e.payType == Hourly
    ensures CalculatePay(e, r1 + r2, o1 + o2).total
         == CalculatePay(e, r1, o1).total + CalculatePay(e, r2, o2).total
  {
    if Set(e.rate) {
      var x := e.rate.value;
      assert (r1 + r2) * x == r1 * x + r2 * x;
      assert (o1 + o2) * x * 1.5 == o1 * x * 1.5 + o2 * x * 1.5;
    }
  }

  /** Overtime never pays less than regular time, for a non-negative rate. */
  lemma OvertimePremium(e: Employee, hours: real)
    requires e.payType == Hourly && Set(e.rate) && e.rate.value >= 0.0 && hours >= 0.0
    ensures CalculatePay(e, 0.0, hours).total >= CalculatePay(e, hours, 0.0).total
  {
    var x := e.rate.value;
    assert hours * x >= 0.0;
    assert hours * x * 1.5 == hours * x + hours * x * 0.5;
  }

  // ----- dictionary conversion -----

  function OptionalValue(x: Option<real>): Value
  {
    match x
    case None => Null
    case Some(v) => Real(v)
  }

  /** `to_dict()`. */
  function ToDict(e: Employee): (d: Dict)
    ensures d.Keys == {"id", "name", "position", "install_crew", "pay_type", "rate", "salary", "commission_rate"}
  {
    map["id" := e.id, "name" := e.name, "position" := e.position,
        "install_crew" := Int(e.installCrew), "pay_type" := e.payType,
        "rate" := OptionalValue(e.rate), "salary" := OptionalValue(e.salary),
        "commission_rate" := OptionalValue(e.commissionRate)]
  }

  /** `float(data[key]) if data.get(key) else None`: None for a missing or falsy amount, failure when float() raises. */
  function OptionalAmount(d: Dict, key: string, cv: Conversions): Option<Option<real>>
  {
    if key in d && Truthy(d[key]) then
      match ToFloat(d[key], cv)
      case None => None
      case Some(x) => Some(Some(x))
    else Some(None)
  }

  /** An amount from_dict can read: missing, falsy, or accepted by float(). */
  predicate AmountConverts(d: Dict, key: string, cv: Conversions)
  {
    key in d && Truthy(d[key]) ==> ToFloat(d[key], cv).Some?
  }

  /**
   * `from_dict(data)`, with `freshId` standing for the `uuid4()` used when there is no id.
   * None where Python raises: a missing name (KeyError) or an install_crew, rate, salary
   * or commission rate that does not convert.
   */
  function FromDict(d: Dict, freshId: string, cv: Conversions): (r: Option<Employee>)
    ensures r.Some? <==> "name" in d && ToInt(Get(d, "install_crew", Int(0)), cv).Some?
                         && AmountConverts(d, "rate", cv) && AmountConverts(d, "salary", cv)
                         && AmountConverts(d, "commission_rate", cv)
    ensures r.Some? ==> r.value.name == d["name"]
    ensures r.Some? ==> Some(r.value.installCrew) == ToInt(Get(d, "install_crew", Int(0)), cv)
    ensures r.Some? ==> r.value.id == Get(d, "id", Text(freshId))
    ensures r.Some? ==> r.value.position == Get(d, "position", Text("none"))
    ensures r.Some? ==> r.value.payType == Get(d, "pay_type", Hourly)
    ensures r.Some? && "install_crew" !in d ==> r.value.installCrew == 0
    ensures r.Some? ==> (r.value.rate.None? <==> "rate" !in d || !Truthy(d["rate"]))
    ensures r.Some? ==> (r.value.salary.None? <==> "salary" !in d || !Truthy(d["salary"]))
    ensures r.Some? ==> (r.value.commissionRate.None? <==> "commission_rate" !in d || !Truthy(d["commission_rate"]))
    ensures r.Some? && "rate" in d && Truthy(d["rate"]) ==> r.value.rate == ToFloat(d["rate"], cv)
    ensures r.Some? && "salary" in d && Truthy(d["salary"]) ==> r.value.salary == ToFloat(d["salary"], cv)
    ensures r.Some? && "commission_rate" in d && Truthy(d["commission_rate"]) ==>
              r.value.commissionRate == ToFloat(d["commission_rate"], cv)
  {
    if "name" !in d then None
    else
      match (ToInt(Get(d, "install_crew", Int(0)), cv), OptionalAmount(d, "rate", cv),
             OptionalAmount(d, "salary", cv), OptionalAmount(d, "commission_rate", cv))
      case (Some(crew), Some(rate), Some(salary), Some(commission)) =>
        Some(Employee(d["name"], Get(d, "position", Text("none")), crew, Get(d, "pay_type", Hourly),
                      rate, salary, commission, Get(d, "id", Text(freshId))))
      case _ => None
  }

  /**
   * `from_dict(to_dict(e)) == e` whenever each amount is absent or non-zero; a zero amount
   * is falsy and comes back as None.
   */
  lemma DictRoundTrip(e: Employee, freshId: string, cv: Conversions)
    requires e.rate.None? || Set(e.rate)
    requires e.salary.None? || Set(e.salary)
    requires e.commissionRate.None? || Set(e.commissionRate)
    ensures FromDict(ToDict(e), freshId, cv) == Some(e)
  {
  }

  /** A zero amount does not survive the round trip. */
  lemma ZeroRateLost(e: Employee, freshId: string, cv: Conversions)
    requires e.rate == Some(0.0)
    ensures FromDict(ToDict(e), freshId, cv).Some?
    ensures FromDict(ToDict(e), freshId, cv).value.rate == None
  {
  }
}
