/** The billing records the dashboard works on, one per (date, project, service) line
    of the billing export, after the date column has been parsed. */
module Records {

  /** A parsed calendar day, as a day number. The dashboard only compares dates for
      equality when it groups costs per day, so any injective numbering will do. */
  type Date = int

  /** One billing line: what a service of a project on a cloud provider cost on a day,
      and how busy its CPUs were (a fraction, 0.25 meaning 25%). */
  datatype Record = Record(
    date: Date,
    project: string,
    service: string,
    cloudProvider: string,
    cost: real,
    cpuUtilization: real)

  /** The cell of the daily cost pivot a record contributes to: its day and its service. */
  datatype GroupKey = GroupKey(date: Date, service: string)

  function KeyOf(r: Record): GroupKey {
    GroupKey(r.date, r.service)
  }
}
