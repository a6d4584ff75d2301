/**
 * The records the read API returns for memory and CPU readouts, and how
 * they are built from the OS readings.
 *
 * `MeminfoResponse::new` and `CpuinfoResponse::new` are the datatype
 * constructors below: each argument lands in the field of the same name.
 */
module Response {
  import opened Wrappers

  newtype uint8 = x: int | 0 <= x < 0x100
  newtype uint64 = x: int | 0 <= x < 0x1_0000_0000_0000_0000

  /**
   * The memory figures of `ProcsMeminfo`: the four `from_meminfo` reads, and
   * `swapfree`, which only the corrected `FromMeminfoIntended` reads.
   */
  datatype ProcsMeminfo = ProcsMeminfo(
    memtotal: Option<uint64>,
    memfree: Option<uint64>,
    memavailable: Option<uint64>,
    swaptotal: Option<uint64>,
    swapfree: Option<uint64>)

  datatype MeminfoResponse = MeminfoResponse(
    totalMem: Option<uint64>,
    freeMem: Option<uint64>,
    availableMem: Option<uint64>,
    swapTotal: Option<uint64>,
    swapFree: Option<uint64>)

  /** Reads a response back as the readout it reports. */
  function ReportedMeminfo(r: MeminfoResponse): ProcsMeminfo {
    ProcsMeminfo(r.totalMem, r.freeMem, r.availableMem, r.swapTotal, r.swapFree)
  }

  /** `from_meminfo` as written: the free swap is filled from the total swap. */
  function FromMeminfo(m: ProcsMeminfo): (r: MeminfoResponse)
    ensures r.totalMem == m.memtotal && r.freeMem == m.memfree
    ensures r.availableMem == m.memavailable && r.swapTotal == m.swaptotal
    ensures r.swapFree == m.swaptotal
  {
    MeminfoResponse(m.memtotal, m.memfree, m.memavailable, m.swaptotal, m.swaptotal)
  }

  /** `from_meminfo` as its field names mean it: every figure reported unchanged. */
  function FromMeminfoIntended(m: ProcsMeminfo): (r: MeminfoResponse)
    ensures ReportedMeminfo(r) == m
  {
    MeminfoResponse(m.memtotal, m.memfree, m.memavailable, m.swaptotal, m.swapfree)
  }

  /** The response as written reports the readout faithfully exactly when free swap equals total swap. */
  lemma FromMeminfoFaithfulIff(m: ProcsMeminfo)
    ensures ReportedMeminfo(FromMeminfo(m)) == m <==> m.swapfree == m.swaptotal
    ensures FromMeminfo(m) == FromMeminfoIntended(m) <==> m.swapfree == m.swaptotal
  {
  }

  /** A readout with 2 units of swap of which 1 is free is reported with 2 free. */
  lemma FromMeminfoSwapFreeCounterexample()
    ensures var m := ProcsMeminfo(Some(8), Some(4), Some(6), Some(2), Some(1));
      FromMeminfo(m).swapFree == Some(2) && m.swapfree == Some(1)
  {
  }

  /** One CPU of `ProcsCpuinfo`. */
  datatype ProcsCpuinfo = ProcsCpuinfo(
    apicid: Option<uint8>,
    vendorId: Option<string>,
    cpuFamily: Option<string>,
    model: Option<string>,
    modelName: Option<string>,
    cpuCores: Option<uint8>,
    cpuMhz: Option<real>)

  datatype CpuinfoResponse = CpuinfoResponse(
    apicid: Option<uint8>,
    vendorId: Option<string>,
    cpuFamily: Option<string>,
    model: Option<string>,
    modelName: Option<string>,
    cpuCores: Option<uint8>,
    cpuMhz: Option<real>)

  /** `r` carries every field of `c` unchanged. */
  predicate Describes(r: CpuinfoResponse, c: ProcsCpuinfo) {
    r.apicid == c.apicid && r.vendorId == c.vendorId && r.cpuFamily == c.cpuFamily &&
    r.model == c.model && r.modelName == c.modelName && r.cpuCores == c.cpuCores &&
    r.cpuMhz == c.cpuMhz
  }

  /** `from_cpuinfo`: one response per CPU, in the same order. */
  function FromCpuinfo(cpus: seq<ProcsCpuinfo>): (r: seq<CpuinfoResponse>)
    ensures |r| == |cpus|
    ensures forall i :: 0 <= i < |cpus| ==> Describes(r[i], cpus[i])
  {
    if cpus == [] then []
    else
      var c := cpus[0];
      [CpuinfoResponse(c.apicid, c.vendorId, c.cpuFamily, c.model, c.modelName, c.cpuCores, c.cpuMhz)]
        + FromCpuinfo(cpus[1..])
  }

  /** Converting two lists of CPUs one after the other is converting their concatenation. */
  lemma {:induction false} FromCpuinfoAppend(a: seq<ProcsCpuinfo>, b: seq<ProcsCpuinfo>)
    ensures FromCpuinfo(a + b) == FromCpuinfo(a) + FromCpuinfo(b)
  {
    if a == [] {
      assert a + b == b;
    } else {
      assert (a + b)[1..] == a[1..] + b;
      FromCpuinfoAppend(a[1..], b);
    }
  }

  /** Different readouts give different responses: nothing is lost in the conversion. */
  lemma FromCpuinfoInjective(a: seq<ProcsCpuinfo>, b: seq<ProcsCpuinfo>)
    requires FromCpuinfo(a) == FromCpuinfo(b)
    ensures a == b
  {
    var r := FromCpuinfo(a);
    forall i | 0 <= i < |a| ensures a[i] == b[i] {
      assert Describes(r[i], a[i]) && Describes(r[i], b[i]);
    }
  }
}
