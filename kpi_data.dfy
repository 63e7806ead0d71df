/**
 * The static catalogue every view reads: conflicting metrics, the
 * standardized glossary and the cross-department metric mappings, with the
 * structural invariants the other components rely on.
 */
module KpiData {

  /** One department's reading of a conflicting metric. */
  datatype Definition = Definition(team: string, definition: string)

  /** A business term that departments define differently. */
  datatype ConflictingMetric = ConflictingMetric(
    id: nat,
    name: string,
    severity: string,
    teams: seq<string>,
    definitions: seq<Definition>,
    recommendation: string)

  /** A standardized glossary entry. */
  datatype GlossaryTerm = GlossaryTerm(
    id: nat,
    name: string,
    team: string,
    definition: string,
    relatedTerms: seq<string>)

  /** One department's term and definition in a mapping row. */
  datatype TermDefinition = TermDefinition(term: string, definition: string)

  /** A side-by-side comparison of one concept across four departments. */
  datatype MetricMapping = MetricMapping(
    id: nat,
    sales: TermDefinition,
    marketing: TermDefinition,
    product: TermDefinition,
    data: TermDefinition,
    alignmentStatus: string)

  // ---------------------------------------------------------------------
  // Invariants

  /** Every metric names at least one team, so `teams[0]` is defined. */
  predicate HasTeams(ms: seq<ConflictingMetric>) {
    forall k :: 0 <= k < |ms| ==> |ms[k].teams| > 0
  }

  /** A conflict needs at least two definitions. */
  predicate IsConflict(m: ConflictingMetric) {
    |m.definitions| >= 2
  }

  /** Every defining team is among the metric's teams. */
  predicate DefinitionsFromTeams(m: ConflictingMetric) {
    forall j :: 0 <= j < |m.definitions| ==> m.definitions[j].team in m.teams
  }

  predicate IsSeverity(s: string) {
    s == "High" || s == "Medium" || s == "Low"
  }

  /** High sorts before Medium before Low. */
  function SeverityRank(s: string): nat {
    if s == "High" then 0 else if s == "Medium" then 1 else 2
  }

  predicate SortedBySeverity(ms: seq<ConflictingMetric>) {
    forall i, j :: 0 <= i < j < |ms| ==> SeverityRank(ms[i].severity) <= SeverityRank(ms[j].severity)
  }

  /** Each metric is no more severe than the one before it. */
  predicate StepwiseBySeverity(ms: seq<ConflictingMetric>) {
    forall k :: 0 < k < |ms| ==> SeverityRank(ms[k - 1].severity) <= SeverityRank(ms[k].severity)
  }

  /** Checking neighbours suffices for the whole order. */
  lemma {:induction false} StepwiseSorted(ms: seq<ConflictingMetric>)
    requires StepwiseBySeverity(ms)
    ensures SortedBySeverity(ms)
  {
    if |ms| > 1 {
      var init := ms[..|ms| - 1];
      assert StepwiseBySeverity(init);
      StepwiseSorted(init);
      forall i, j | 0 <= i < j < |ms|
        ensures SeverityRank(ms[i].severity) <= SeverityRank(ms[j].severity)
      {
        if j < |ms| - 1 {
          assert ms[i] == init[i] && ms[j] == init[j];
        } else if i < j - 1 {
          assert ms[i] == init[i] && ms[j - 1] == init[j - 1];
        }
      }
    }
  }

  predicate IsAlignmentStatus(s: string) {
    s == "Aligned" || s == "Partially Aligned" || s == "Misaligned"
  }

  /** The ids are exactly 1, 2, ..., |ms| in order. */
  predicate MetricIdsSequential(ms: seq<ConflictingMetric>) {
    forall k :: 0 <= k < |ms| ==> ms[k].id == k + 1
  }

  predicate GlossaryIdsSequential(g: seq<GlossaryTerm>) {
    forall k :: 0 <= k < |g| ==> g[k].id == k + 1
  }

  predicate GlossaryIdsDistinct(g: seq<GlossaryTerm>) {
    forall i, j :: 0 <= i < j < |g| ==> g[i].id != g[j].id
  }

  /** Sequential ids are distinct. */
  lemma SequentialIdsDistinct(g: seq<GlossaryTerm>)
    requires GlossaryIdsSequential(g)
    ensures GlossaryIdsDistinct(g)
  {
  }

  // ---------------------------------------------------------------------
  // The catalogue

  const ConflictingMetrics: seq<ConflictingMetric> := [
    ConflictingMetric(1, "Conversion Rate", "High", ["Sales", "Marketing", "Product"], [
      Definition("Sales", "Percentage of qualified leads that become paying customers."),
      Definition("Marketing", "Percentage of website visitors who complete a desired action (form submission, download, etc.)."),
      Definition("Product", "Percentage of free trial users who convert to paid subscriptions.")],
      "Create a standardized definition with clear context indicators (e.g., 'Marketing Conversion Rate' vs 'Sales Conversion Rate')."),
    ConflictingMetric(2, "Active User", "High", ["Product", "Marketing", "Data"], [
      Definition("Product", "A user who has performed a core action in the product within the last 30 days."),
      Definition("Marketing", "Any user who has logged in at least once in the last 90 days."),
      Definition("Data", "A user who has completed at least 3 different actions in the product within the last 28 days.")],
      "Standardize on the Data team's definition as it provides the most meaningful measure of engagement."),
    ConflictingMetric(3, "Churn Rate", "High", ["Sales", "Finance", "Customer Success"], [
      Definition("Sales", "Percentage of customers who cancel their subscription in a given period."),
      Definition("Finance", "Percentage of recurring revenue lost in a given period compared to the previous period."),
      Definition("Customer Success", "Percentage of customers who downgrade or cancel their subscription in a given period.")],
      "Use 'Logo Churn' for customer count metrics and 'Revenue Churn' for financial metrics to avoid confusion."),
    ConflictingMetric(4, "Qualified Lead", "Medium", ["Sales", "Marketing"], [
      Definition("Sales", "A prospect that has been researched and vetted by the sales team, meeting specific criteria that align with the ideal customer profile."),
      Definition("Marketing", "A lead that has shown interest through multiple touchpoints and meets demographic and firmographic criteria.")],
      "Use 'Marketing Qualified Lead (MQL)' and 'Sales Qualified Lead (SQL)' to distinguish between the two definitions."),
    ConflictingMetric(5, "Customer Acquisition Cost", "Medium", ["Marketing", "Finance", "Sales"], [
      Definition("Marketing", "Total marketing spend divided by the number of new customers acquired in a given period."),
      Definition("Finance", "Total sales and marketing expenses divided by the number of new customers acquired in a given period."),
      Definition("Sales", "Total cost of sales team divided by the number of deals closed in a given period.")],
      "Use 'Fully-loaded CAC' for the finance definition and 'Marketing CAC' or 'Sales CAC' for the department-specific metrics."),
    ConflictingMetric(6, "Engagement", "Medium", ["Marketing", "Product", "Customer Success"], [
      Definition("Marketing", "Interactions with marketing content, measured by clicks, opens, and social media interactions."),
      Definition("Product", "Frequency and depth of product usage, measured by session duration, feature adoption, and actions per session."),
      Definition("Customer Success", "Customer responsiveness to outreach and participation in training/onboarding sessions.")],
      "Use specific terms like 'Marketing Engagement', 'Product Engagement', and 'Customer Engagement' to clarify context."),
    ConflictingMetric(7, "Retention Rate", "Medium", ["Product", "Customer Success", "Finance"], [
      Definition("Product", "Percentage of users who return to the product in a given period after their first use."),
      Definition("Customer Success", "Percentage of customers who renew their contracts when they come up for renewal."),
      Definition("Finance", "Percentage of recurring revenue retained from existing customers from one period to the next.")],
      "Use 'User Retention' for product metrics, 'Customer Retention' for customer success, and 'Revenue Retention' for finance."),
    ConflictingMetric(8, "Activation", "Low", ["Product", "Marketing"], [
      Definition("Product", "When a user completes a key action that indicates they've experienced the core value of the product."),
      Definition("Marketing", "When a lead takes a specific action that indicates high intent, such as requesting a demo.")],
      "Use 'Product Activation' and 'Lead Activation' to distinguish between these concepts."),
    ConflictingMetric(9, "Lifetime Value", "Low", ["Finance", "Marketing", "Customer Success"], [
      Definition("Finance", "The total revenue a customer is expected to generate over their entire relationship with the company, minus the cost to serve them."),
      Definition("Marketing", "The predicted revenue a customer will generate over their lifetime, used to determine maximum customer acquisition cost."),
      Definition("Customer Success", "The total value of a customer relationship, including referrals and expansion opportunities.")],
      "Standardize on the Finance definition but include notes about additional value factors for marketing and customer success contexts."),
    ConflictingMetric(10, "Integrity Score", "Low", ["Data", "Product"], [
      Definition("Data", "Percentage of records with no missing or invalid fields."),
      Definition("Product", "A measure of system uptime and data consistency during user sessions.")],
      "Rename the Product metric to 'System Integrity Score' to differentiate it from the Data team's 'Data Integrity Score'.")
  ]

  const StandardizedMetrics: seq<GlossaryTerm> := [
    GlossaryTerm(1, "Monthly Recurring Revenue (MRR)", "All",
      "The predictable revenue generated by all active subscriptions in a given month.",
      ["Annual Recurring Revenue (ARR)", "Revenue"]),
    GlossaryTerm(2, "Net Promoter Score (NPS)", "All",
      "A measure of customer loyalty based on likelihood to recommend, calculated as the percentage of promoters minus the percentage of detractors.",
      ["Customer Satisfaction", "Customer Effort Score"]),
    GlossaryTerm(3, "Customer Lifetime Value (CLV)", "All",
      "The total revenue a customer is expected to generate over their entire relationship with the company.",
      ["Customer Acquisition Cost", "LTV:CAC Ratio"]),
    GlossaryTerm(4, "Marketing Qualified Lead (MQL)", "Marketing",
      "A lead that has shown interest through multiple touchpoints and meets demographic and firmographic criteria.",
      ["Sales Qualified Lead", "Lead Scoring"]),
    GlossaryTerm(5, "Sales Qualified Lead (SQL)", "Sales",
      "A prospect that has been researched and vetted by the sales team, meeting specific criteria that align with the ideal customer profile.",
      ["Marketing Qualified Lead", "Opportunity"])
  ]

  const MetricMappings: seq<MetricMapping> := [
    MetricMapping(1,
      TermDefinition("Conversion Rate", "% of qualified leads that become customers"),
      TermDefinition("Conversion Rate", "% of visitors who complete a desired action"),
      TermDefinition("Conversion Rate", "% of free trial users who convert to paid"),
      TermDefinition("Conversion Rate", "% change from one state to another in a funnel"),
      "Misaligned"),
    MetricMapping(2,
      TermDefinition("Customer Onboarding", "Process of setting up new customers"),
      TermDefinition("User Acquisition", "Process of gaining new users"),
      TermDefinition("Activation", "User experiencing core product value"),
      TermDefinition("First Value Delivery", "First meaningful interaction with product"),
      "Partially Aligned"),
    MetricMapping(3,
      TermDefinition("Revenue", "Total sales income"),
      TermDefinition("Revenue Attribution", "Revenue attributed to marketing efforts"),
      TermDefinition("Revenue per User", "Average revenue generated per user"),
      TermDefinition("Revenue", "Total income from all sources"),
      "Aligned")
  ]

  // ---------------------------------------------------------------------
  // What the catalogue guarantees

  lemma CatalogueHasTeams()
    ensures HasTeams(ConflictingMetrics)
  {
  }

  lemma CatalogueConflicts()
    ensures forall k :: 0 <= k < |ConflictingMetrics| ==> IsConflict(ConflictingMetrics[k])
  {
  }

  lemma CatalogueDefinitionsFromTeams()
    ensures forall k :: 0 <= k < |ConflictingMetrics| ==> DefinitionsFromTeams(ConflictingMetrics[k])
  {
  }

  lemma CatalogueIds()
    ensures |ConflictingMetrics| == 10 && MetricIdsSequential(ConflictingMetrics)
  {
  }

  lemma CatalogueSeverities()
    ensures forall k :: 0 <= k < |ConflictingMetrics| ==> IsSeverity(ConflictingMetrics[k].severity)
    ensures SortedBySeverity(ConflictingMetrics)
  {
    assert StepwiseBySeverity(ConflictingMetrics);
    StepwiseSorted(ConflictingMetrics);
  }

  lemma GlossaryIds()
    ensures |StandardizedMetrics| == 5 && GlossaryIdsSequential(StandardizedMetrics)
    ensures GlossaryIdsDistinct(StandardizedMetrics)
  {
  }

  lemma MappingStatuses()
    ensures forall k :: 0 <= k < |MetricMappings| ==> IsAlignmentStatus(MetricMappings[k].alignmentStatus)
  {
  }
}
