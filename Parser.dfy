/**
 * The two classes of `smartclim_ble.parser`: the reading record that a frame
 * is decoded into, and the advertisement wrapper that decodes the first
 * manufacturer-data blob of a BLE advertisement.
 */
module Parser {
  import opened Types
  import opened SensorFrame
  import MD = ManufacturerData

  /** The sensor record; its decode method overwrites the three measurements in place. */
  class SensorData {
    var name: string
    var tempTenths: int
    var humidity: int
    var battery: int

    /** A record as the dataclass defaults build it. */
    constructor()
      ensures name == "" && Readings() == Default
    {
      name := "";
      tempTenths := 0;
      humidity := 0;
      battery := 0;
    }

    /** The three measurements as a value. */
    function Readings(): Reading
      reads this
    {
      Reading(tempTenths, humidity, battery)
    }

    /**
     * Decodes `raw` into the record. `ok == false` stands for the
     * "Wrong size to decode data" exception, raised before any field is set.
     */
    method Decode(raw: seq<byte>, isAdv: bool) returns (ok: bool)
      modifies this
      ensures ok <==> |raw| == FrameLength(isAdv)
      ensures name == old(name)
      ensures Readings() == AfterDecode(old(Readings()), raw, isAdv)
      ensures !ok ==> Readings() == old(Readings())
      ensures ok ==> 0 <= tempTenths <= 510 && 0 <= humidity < 256 && 0 <= battery < 256
    {
      var frameLength := 10;
      var offset := 0;
      if isAdv {
        frameLength := 13;
        offset := 1;
      }

      if |raw| != frameLength {
        return false;
      }

      var temperature: int := raw[2 + offset] as int + raw[1 + offset];
      if temperature > 0x8000 {
        temperature := temperature - 0x10000;
      }
      tempTenths := temperature;
      humidity := raw[4 + offset];
      battery := raw[9 + offset];
      ok := true;
    }
  }

  /** A BLE device reduced to what the parser reads from it. */
  datatype Device = Device(name: string)

  /** An advertisement reduced to its manufacturer-data mapping. */
  datatype AdvertisementData = AdvertisementData(manufacturerData: MD.Mapping)

  /** Why constructing an advertisement record raises. */
  datatype InitError =
    | NoManufacturerData  // `list(data.keys())[0]` on an empty mapping: IndexError
    | WrongFrameSize      // the first blob is not a 10-byte connected frame

  /**
   * What constructing an advertisement record yields: Success(None) when no
   * readings are attached, Success(Some((name, reading))) when the first
   * manufacturer blob was decoded, or the error it raises.
   */
  function ExpectedReadings(device: Option<Device>, adData: Option<AdvertisementData>)
    : (r: Result<Option<(string, Reading)>, InitError>)
    ensures r == Success(None) <==> device.None? || adData.None?
    ensures r == Failure(NoManufacturerData) <==>
      device.Some? && adData.Some? && |adData.value.manufacturerData| == 0
    ensures r == Failure(WrongFrameSize) <==>
      device.Some? && adData.Some? && |adData.value.manufacturerData| > 0 &&
      |adData.value.manufacturerData[0].1| != 10
    ensures r.Success? && r.value.Some? ==>
      device.Some? && adData.Some? && |adData.value.manufacturerData| > 0 &&
      r.value.value.0 == device.value.name &&
      DecodeFrame(adData.value.manufacturerData[0].1, false) == Some(r.value.value.1)
  {
    if device.None? || adData.None? then Success(None)
    else
      var data := adData.value.manufacturerData;
      var keys := MD.Keys(data);
      if |keys| == 0 then Failure(NoManufacturerData)
      else
        MD.FirstKeyBlob(data);
        var blob := MD.Get(data, keys[0]).value;
        match DecodeFrame(blob, false)
        case None => Failure(WrongFrameSize)
        case Some(reading) => Success(Some((device.value.name, reading)))
  }

  /** The record built from one advertisement event. */
  class BeeWiSmartClimAdvertisement {
    var device: Option<Device>
    var readings: SensorData?

    /** The object before its readings are attached: the dataclass default `readings = None`. */
    constructor Empty(device: Option<Device>)
      ensures this.device == device && readings == null
    {
      this.device := device;
      readings := null;
    }

    /**
     * The constructor of the source. It returns Failure where the source's
     * constructor raises, since a Dafny constructor cannot fail.
     */
    static method New(device: Option<Device>, adData: Option<AdvertisementData>)
      returns (r: Result<BeeWiSmartClimAdvertisement, InitError>)
      ensures r.Failure? <==> ExpectedReadings(device, adData).Failure?
      ensures r.Failure? ==> r.error == ExpectedReadings(device, adData).error
      ensures r.Success? ==> fresh(r.value) && r.value.device == device
      ensures r.Success? && ExpectedReadings(device, adData) == Success(None) ==> r.value.readings == null
      ensures r.Success? && ExpectedReadings(device, adData).value.Some? ==>
        var expected := ExpectedReadings(device, adData).value.value;
        r.value.readings != null && fresh(r.value.readings) &&
        r.value.readings.name == expected.0 && r.value.readings.Readings() == expected.1
    {
      var adv := new BeeWiSmartClimAdvertisement.Empty(device);
      if device.Some? && adData.Some? {
        var sensor := new SensorData();
        adv.readings := sensor;
        sensor.name := device.value.name;
        var data := adData.value.manufacturerData;
        var keys := MD.Keys(data);
        if |keys| == 0 {
          return Failure(NoManufacturerData);
        }
        var key := keys[0];
        MD.FirstKeyBlob(data);
        var ok := sensor.Decode(MD.Get(data, key).value, false);
        if !ok {
          return Failure(WrongFrameSize);
        }
      }
      r := Success(adv);
    }
  }
}
