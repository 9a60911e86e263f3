/** The records the dashboard receives from the advertising platform, as
    declared in types/index.ts. Monetary and ratio fields (spend, ctr, cpc,
    cpm) are floating-point strings and are kept as opaque text. */
module Types {
  import opened Common

  datatype Status = ACTIVE | PAUSED | DELETED | ARCHIVED

  datatype Campaign = Campaign(
    id: string,
    name: string,
    status: Status,
    dailyBudget: Option<string>,
    objective: Option<string>)

  /** One campaign-level insight row. `impressions` and `clicks` are decimal
      strings when present; a missing field is None. */
  datatype Insight = Insight(
    campaignId: Option<string>,
    campaignName: Option<string>,
    spend: string,
    impressions: Option<Numeral>,
    clicks: Option<Numeral>)
}
