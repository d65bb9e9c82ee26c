/**
 * The records shared by the notebook's views: experiments and their protocol steps,
 * inventory samples, lab machines and their bookings, the application's views, and the
 * navigation parameters that views pass to one another.
 *
 * Strings are `seq<char>`; an optional field of the original record (`notes?`, `purpose?`,
 * `nextMaintenance?`) is an `Option`.
 */
module Types {

  datatype Option<T> = None | Some(value: T)

  datatype ExperimentStatus = Draft | InProgress | Review | Completed | Archived

  datatype ProtocolStep = ProtocolStep(id: string, instruction: string, completed: bool, notes: Option<string>)

  datatype Experiment = Experiment(
    id: string,
    title: string,
    author: string,
    date: string,
    status: ExperimentStatus,
    content: string,
    protocolSteps: seq<ProtocolStep>,
    tags: seq<string>)

  /** An inventory item; the record's `type` field is called `sampleType` here. */
  datatype Sample = Sample(
    id: string,
    name: string,
    sampleType: string,
    location: string,
    quantity: string,
    expiration: string,
    barcode: string)

  /** A reservation of a machine; start and end are ISO-8601 instants, as text. */
  datatype MachineBooking = MachineBooking(
    id: string,
    userId: string,
    userName: string,
    startTime: string,
    endTime: string,
    purpose: Option<string>)

  datatype MachineStatus = Available | InUse | Maintenance

  /** A bookable lab machine; the record's `type` field is called `machineType` here. */
  datatype LabMachine = LabMachine(
    id: string,
    name: string,
    machineType: string,
    location: string,
    status: MachineStatus,
    bookings: seq<MachineBooking>,
    nextMaintenance: Option<string>)

  datatype ViewState = Dashboard | Experiments | Inventory | Molecular | Analytics | AuditLog

  /** The three tabs of the inventory view: 'list', 'cold-chain' and 'equipment'. */
  datatype InventoryTab = ListTab | ColdChainTab | EquipmentTab

  /**
   * The loosely typed parameter bag that travels with a navigation request. An absent key
   * is `None` (or `false` for the `openCreate` flag); `NoParams` is a request without one.
   */
  datatype NavParams = NavParams(tab: Option<InventoryTab>, id: Option<string>, search: Option<string>, openCreate: bool)

  const NoParams := NavParams(None, None, None, false)
}
