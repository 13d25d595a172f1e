/** The registry of tool implementations, keyed by canonical tool name. */
module ToolRegistry {
  import opened Common
  import opened Enums
  import opened ToolBase

  const CalculatePension: BaseTool := BaseTool(
    "calculate_pension",
    "Calculate pension benefits based on salary, years of service, and retirement age",
    [ ToolInput("current_salary", Float, "Current annual salary in USD", true),
      ToolInput("years_of_service", Integer, "Number of years of service with the company", true),
      ToolInput("retirement_age", Integer, "Planned retirement age", true),
      ToolInput("pension_plan_type", String,
                "Type of pension plan (defined_benefit, defined_contribution, hybrid)", false) ])

  const HealthInsuranceLookup: BaseTool := BaseTool(
    "health_insurance_lookup",
    "Look up health insurance plan details, coverage, and costs",
    [ ToolInput("plan_id", String, "Health insurance plan identifier", true),
      ToolInput("employee_tier", String,
                "Employee tier (individual, family, employee_spouse, employee_children)", true),
      ToolInput("state", String, "State where the employee is located", false) ])

  const PtoBalanceLookup: BaseTool := BaseTool(
    "pto_balance_lookup",
    "Check paid time off balance and accrual information",
    [ ToolInput("employee_id", String, "Employee identification number", true),
      ToolInput("balance_type", String,
                "Type of PTO balance to check (vacation, sick, personal, total)", false) ])

  const BenefitsEnrollment: BaseTool := BaseTool(
    "benefits_enrollment",
    "Help with benefits enrollment during open enrollment or life events",
    [ ToolInput("employee_id", String, "Employee identification number", true),
      ToolInput("enrollment_type", String, "Type of enrollment (open_enrollment, new_hire, life_event)", true),
      ToolInput("benefits_selections", Dict, "Dictionary of benefit selections and choices", true) ])

  const FsaHsaCalculator: BaseTool := BaseTool(
    "fsa_hsa_calculator",
    "Calculate optimal FSA/HSA contributions based on expected medical expenses",
    [ ToolInput("expected_medical_expenses", Float, "Expected annual medical expenses in USD", true),
      ToolInput("account_type", String, "Type of account (FSA, HSA, both)", true),
      ToolInput("current_age", Integer, "Employee's current age", false),
      ToolInput("retirement_age", Integer, "Expected retirement age", false) ])

  /** The five canonical tool names. */
  const CanonicalNames: set<string> :=
    {"calculate_pension", "health_insurance_lookup", "pto_balance_lookup",
     "benefits_enrollment", "fsa_hsa_calculator"}

  /** The registry: each tool under its own name. */
  const Registry: map<string, BaseTool> := map[
    "calculate_pension" := CalculatePension,
    "health_insurance_lookup" := HealthInsuranceLookup,
    "pto_balance_lookup" := PtoBalanceLookup,
    "benefits_enrollment" := BenefitsEnrollment,
    "fsa_hsa_calculator" := FsaHsaCalculator]

  /** The registry's keys are exactly the canonical names, and each key maps to
      the tool that carries that name. */
  lemma RegistryWellFormed()
    ensures Registry.Keys == CanonicalNames
    ensures forall k :: k in Registry ==> Registry[k].name == k
  {
  }

  /** `.get` on a registry map. */
  function Lookup(registry: map<string, BaseTool>, name: string): (r: Option<BaseTool>)
    ensures r.Some? <==> name in registry
    ensures r.Some? ==> r.value == registry[name]
  {
    if name in registry then Some(registry[name]) else None
  }

  /** `get_tool`: the registered tool of that name, or None. */
  function GetTool(name: string): (r: Option<BaseTool>)
    ensures r.Some? <==> name in CanonicalNames
    ensures r.Some? ==> r.value.name == name && r.value == Registry[name]
  {
    Lookup(Registry, name)
  }
}
