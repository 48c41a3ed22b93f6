/** The runner's `Device` (drivewipe/wipe_device.rb): the disk named on the command
    line, its model and serial as scsiinfo reports them, and its size in
    megabytes. What scsiinfo printed and what /sys/block/<name>/size holds are
    inputs: the Product and Serial Number extraction is not modelled, its results
    (possibly nil) are passed in. */
module Devices {
  import opened Text
  import opened Patterns

  const HD_UNSUPPORTED := "Pure ATA devices (/dev/hd*) are not supported by this script"

  datatype Device = Device(name: string, model: Option<string>, serial: Option<string>, size: int)

  /** `name =~ /^hd/`: "hd" at the start of the name or of a line in it. */
  predicate PureAta(name: string)
  {
    Matches(name, [Lit("hd")], true)
  }

  /** `Integer(sectors) * 512 / 1000000`: Ruby's `/` on integers rounds down, as
      Dafny's does for a positive divisor, so the size is the largest whole number
      of megabytes (10^6 bytes) that fits in the sectors' bytes. */
  function SizeOf(sectors: int): (mb: int)
    ensures mb * 1000000 <= sectors * 512 < (mb + 1) * 1000000
  {
    sectors * 512 / 1000000
  }

  /** `Device.new(name)`: a name that starts a line with "hd" raises; any other
      yields a device with the given model, serial and size. */
  function NewDevice(name: string, model: Option<string>, serial: Option<string>, sectors: int)
    : (r: Result<Device, string>)
    ensures r.Err? <==> PureAta(name)
    ensures r.Err? ==> r.error == HD_UNSUPPORTED
    ensures r.Ok? ==> r.value.name == name && r.value.model == model && r.value.serial == serial
    ensures r.Ok? ==> r.value.size * 1000000 <= sectors * 512 < (r.value.size + 1) * 1000000
  {
    if PureAta(name) then Err(HD_UNSUPPORTED)
    else Ok(Device(name, model, serial, SizeOf(sectors)))
  }

  const DEV := "/dev/"

  /** `Device#path`. */
  function Path(d: Device): string
  {
    DEV + d.name
  }

  /** The path names the device: it is "/dev/" followed by the name, and two
      devices share a path exactly when they share a name. */
  lemma PathNames(d: Device, e: Device)
    ensures Path(d)[..|DEV|] == DEV && Path(d)[|DEV|..] == d.name
    ensures Path(d) == Path(e) <==> d.name == e.name
  {
    assert Path(d)[|DEV|..] == d.name;
    assert Path(e)[|DEV|..] == e.name;
  }

  /** A name that begins with "hd" is refused, and so is one with "hd" right after
      a newline; names starting with "sd" and holding no newline are accepted. */
  lemma PureAtaNames(name: string)
    ensures |name| >= 2 && name[..2] == "hd" ==> PureAta(name)
    ensures |name| >= 2 && name[..2] == "sd" && '\n' !in name ==> !PureAta(name)
  {
    if |name| >= 2 && name[..2] == "hd" {
      assert OccursAt(name, "hd", 0);
      assert MatchAt(name, 0, [Lit("hd")]).Some?;
    }
    if |name| >= 2 && name[..2] == "sd" && '\n' !in name {
      forall i | 0 <= i <= |name| && LineStart(name, i)
        ensures MatchAt(name, i, [Lit("hd")]).None?
      {
        assert i == 0;
        assert !OccursAt(name, "hd", 0) by { assert name[0] == 's'; }
      }
      SearchFinds(name, [Lit("hd")], true, 0);
    }
  }
}
