/** Shared data model of the TRDP core: the records of trdp_config.hpp, the
    fixed-width integer ranges of the C++ code, and the TCNopen constants the
    core compares against. */
module TrdpTypes {

  datatype Option<T> = None | Some(value: T) {
    /** The value, or `default` when there is none. */
    function GetOr(default: T): T {
      if Some? then value else default
    }
  }

  type uint8 = x: int | 0 <= x < 0x100
  type uint16 = x: int | 0 <= x < 0x1_0000
  type uint32 = x: int | 0 <= x < 0x1_0000_0000
  type uint64 = x: int | 0 <= x < 0x1_0000_0000_0000_0000
  type int64 = x: int | -0x8000_0000_0000_0000 <= x < 0x8000_0000_0000_0000

  /** Which side of a process data exchange this device takes. */
  datatype Direction = Source | Sink | SourceSink

  datatype DatasetElement = DatasetElement(name: string, elementType: uint32, arraySize: uint32)

  datatype Dataset = Dataset(id: uint32, name: string, elements: seq<DatasetElement>)

  datatype InterfaceDef = InterfaceDef(name: string, networkId: uint32, hostIp: string)

  datatype PdTelegramDef = PdTelegramDef(
    name: string,
    comId: uint32,
    datasetId: uint32,
    direction: Direction,
    cycleUs: uint32,
    marshall: bool,
    interfaceName: string)

  // TRDP_EXCHG_OPTION_T codes of TCNopen's trdp_types.h
  const ExchgUnset: uint32 := 0
  const ExchgSource: uint32 := 1
  const ExchgSink: uint32 := 2
  const ExchgSourceSink: uint32 := 3

  // TRDP_FLAGS_MARSHALL of TCNopen's trdp_types.h
  const MarshallFlag: bv32 := 0x02

  // TRDP_DATA_TYPE_T codes of TCNopen's trdp_types.h that the backend names
  const TypeBool8: uint32 := 1
  const TypeInt8: uint32 := 4
  const TypeInt16: uint32 := 5
  const TypeInt32: uint32 := 6
  const TypeUInt8: uint32 := 8
  const TypeUInt16: uint32 := 9
  const TypeUInt32: uint32 := 10
}
