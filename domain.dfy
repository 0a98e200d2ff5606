/**
 * The data the prioritisation engine works on: one catalogue entry per
 * renovation work, and the project answers grouped as the request carries
 * them (housing, budget and technical data, plus the chosen profile).
 * Numeric answers arrive already parsed to integers.
 */
module Domain {

  /** A row of the `work_list` catalogue table. */
  datatype Work = Work(
    kind: string,            // "Type" (genre): Roofing, Walls, Heating, ...
    description: string,     // "Description": the key the adjustment rules match on
    grant: real,             // "Estimated Grant"
    grantBySurface: bool,    // "Grant by surface?"
    cost: real,              // "Estimated Cost"
    costBySurface: bool      // "Cost by surface?"
  )

  datatype Housing = Housing(
    surface: int,
    roofType: string,
    heatingType: string,
    programmableThermostat: string,
    averageTemperature: string,
    wallInsulation: string,
    roofInsulation: string,
    floorInsulation: string
  )

  datatype BudgetData = BudgetData(
    totalBudget: int,
    householdIncome: int,
    childNumber: int,
    floorNumber: int,
    propertyType: string,
    renovationMethod: string
  )

  datatype TechnicalData = TechnicalData(
    hasSolarPanels: string,
    hasWaterHeater: string,
    boilerType: string,
    ventilationType: string
  )

  datatype Project = Project(
    profile: string,
    housing: Housing,
    budget: BudgetData,
    technical: TechnicalData
  )

  /** The exceptions the engine can raise on its inputs. */
  datatype Error =
    | ZeroWeightTotal                     // ZeroDivisionError while normalising the weights
    | UnknownIncomeCategory(name: string) // KeyError: a threshold category with no multiplier
    | MathDomain(surface: int)            // math.sqrt of a negative floor surface
    | InvalidRoofType(roofType: string)   // ValueError for a roof type other than flat, single, double

  // Work types (the catalogue's "Type" column) the rules refer to.
  const Roofing := "Roofing"
  const Walls := "Walls"
  const Floors := "Floors"
  const Heating := "Heating"
  const Joinery := "Joinery"
  const HotWater := "Hot water"

  // Work descriptions the rules match on.
  const HeatPump := "Heat pump"
  const Thermostat := "Programmable Thermostat"
  const WallInsulation := "Wall thermal insulation"
  const RoofInsulation := "Roof or attic thermal insulation"
  const FloorInsulation := "Floor thermal insulation"
  const Photovoltaic := "Installation of photovoltaic panels"
  const SolarWaterHeater := "Solar water heater"
  const Ventilation := "Controlled mechanical ventilation"

  // Criterion names shared by the weights, the profiles and the rules.
  const Sustainability := "Environmental sustainability"
  const RenewableEnergy := "Renewable energy production"
  const ThermalInsulation := "Thermal insulation"
  const EnergySavings := "Energy savings"
  const Modernization := "Infrastructure modernization"
  const PropertyValue := "Increase in property value"
  const Comfort := "Comfort and well-being"
}
