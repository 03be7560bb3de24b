/**
 * The inventory records the dashboard receives from the Spoolman service.
 * Optional properties are `Option`s; properties no modelled operation reads
 * (weights, prices, comments, densities) are left out. Date strings are
 * modelled by the timestamps they denote, and `None` stands for an absent or
 * empty date string.
 */
module SpoolmanTypes {
  import opened Wrappers

  datatype Vendor = Vendor(id: int, name: string)

  datatype Filament = Filament(
    id: int,
    name: Option<string>,
    vendor: Option<Vendor>,
    material: Option<string>,
    settingsExtruderTemp: Option<int>,
    colorHex: Option<string>)

  datatype Spool = Spool(
    id: int,
    registered: Option<int>,
    lastUsed: Option<int>,
    filament: Filament,
    archived: bool)
}
