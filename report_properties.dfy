/**
 * The error reports of a build: one "Could not load image <path>" per
 * visited slot whose image fails to load, in the order the slots are
 * visited, and nothing else.
 */
module ReportProperties {

  import opened AvatarSettings
  import opened Operators
  import opened BuildProperties

  /** What visiting one slot reports. */
  function SlotReport(s: SettingsValue, slot: ImageSlot, loads: string -> bool): seq<Report> {
    if Failed(s, slot, loads) then [CouldNotLoad(Path(s, slot))] else []
  }

  /** What visiting `slots` in order reports. */
  function SlotReports(s: SettingsValue, slots: seq<ImageSlot>, loads: string -> bool): seq<Report> {
    if slots == [] then [] else SlotReport(s, slots[0], loads) + SlotReports(s, slots[1..], loads)
  }

  /** The reports are those of the failed slots, each under its own path. */
  lemma {:induction false} SlotReportsAreFailures(s: SettingsValue, slots: seq<ImageSlot>, loads: string -> bool)
    ensures forall r :: r in SlotReports(s, slots, loads) <==>
              exists slot :: slot in slots && Failed(s, slot, loads) && r == CouldNotLoad(Path(s, slot))
    ensures |SlotReports(s, slots, loads)| <= |slots|
  {
    if slots != [] {
      SlotReportsAreFailures(s, slots[1..], loads);
      forall r | r in SlotReports(s, slots, loads)
        ensures exists slot :: slot in slots && Failed(s, slot, loads) && r == CouldNotLoad(Path(s, slot))
      {
        if r in SlotReport(s, slots[0], loads) {
          assert slots[0] in slots;
        } else {
          var slot :| slot in slots[1..] && Failed(s, slot, loads) && r == CouldNotLoad(Path(s, slot));
          assert slot in slots;
        }
      }
      forall slot | slot in slots && Failed(s, slot, loads)
        ensures CouldNotLoad(Path(s, slot)) in SlotReports(s, slots, loads)
      {
        if slot != slots[0] {
          assert slot in slots[1..];
        }
      }
    }
  }

  lemma BaseColorStageReports(p: Progress, s: SettingsValue, loads: string -> bool)
    ensures BaseColorStage(p, s, loads).reports == p.reports + SlotReport(s, BaseColorSlot, loads)
  {
  }

  lemma MetalRoughStageReports(p: Progress, s: SettingsValue, loads: string -> bool)
    ensures MetalRoughStage(p, s, loads).reports == p.reports + MetalRoughReports(s, loads)
  {
    if s.usePackedMaps {
      PackedStageReports(p, s, loads);
    } else {
      var p1 := MetallicStage(p, s, loads);
      MetallicStageReports(p, s, loads);
      RoughnessStageReports(p1, s, loads);
      assert p.reports + SlotReport(s, MetallicSlot, loads) + SlotReport(s, RoughnessSlot, loads)
          == p.reports + (SlotReport(s, MetallicSlot, loads) + SlotReport(s, RoughnessSlot, loads));
    }
  }

  lemma PackedStageReports(p: Progress, s: SettingsValue, loads: string -> bool)
    ensures PackedStage(p, s, loads).reports == p.reports + SlotReport(s, MetallicSmoothnessSlot, loads)
  {
  }

  lemma MetallicStageReports(p: Progress, s: SettingsValue, loads: string -> bool)
    ensures MetallicStage(p, s, loads).reports == p.reports + SlotReport(s, MetallicSlot, loads)
  {
  }

  lemma RoughnessStageReports(p: Progress, s: SettingsValue, loads: string -> bool)
    ensures RoughnessStage(p, s, loads).reports == p.reports + SlotReport(s, RoughnessSlot, loads)
  {
  }

  lemma NormalStageReports(p: Progress, s: SettingsValue, loads: string -> bool)
    ensures NormalStage(p, s, loads).reports == p.reports + SlotReport(s, NormalSlot, loads)
  {
  }

  /** The emission slot reports only its own failure; the escaping exception is no report. */
  lemma EmissionStageReports(p: Progress, s: SettingsValue, loads: string -> bool)
    ensures EmissionStage(p, s, loads).0.reports == p.reports + SlotReport(s, EmissionSlot, loads)
  {
  }

  /** A build reports the failed slots in the order it visits them. */
  lemma BuildReports(s: SettingsValue, loads: string -> bool)
    ensures Build(s, loads).reports == SlotReports(s, VisitedSlots(s), loads)
  {
    StagesReports(s, loads);
  }

  lemma StagesReports(s: SettingsValue, loads: string -> bool)
    ensures Stages(s, loads).0.reports == SlotReports(s, VisitedSlots(s), loads)
  {
    BeforeEmissionReports(s, loads);
    EmissionStageReports(BeforeEmission(s, loads), s, loads);
    VisitedSlotReports(s, loads);
  }

  lemma BeforeEmissionReports(s: SettingsValue, loads: string -> bool)
    ensures BeforeEmission(s, loads).reports ==
            SlotReport(s, BaseColorSlot, loads) + MetalRoughReports(s, loads) + SlotReport(s, NormalSlot, loads)
  {
    var p1 := BaseColorStage(Start(), s, loads);
    var p2 := MetalRoughStage(p1, s, loads);
    BaseColorStageReports(Start(), s, loads);
    MetalRoughStageReports(p1, s, loads);
    NormalStageReports(p2, s, loads);
  }

  /** What the metallic and roughness slots report, packed or separate. */
  function MetalRoughReports(s: SettingsValue, loads: string -> bool): seq<Report> {
    if s.usePackedMaps then SlotReport(s, MetallicSmoothnessSlot, loads)
    else SlotReport(s, MetallicSlot, loads) + SlotReport(s, RoughnessSlot, loads)
  }

  lemma VisitedSlotReports(s: SettingsValue, loads: string -> bool)
    ensures SlotReports(s, VisitedSlots(s), loads) ==
            SlotReport(s, BaseColorSlot, loads) + MetalRoughReports(s, loads) +
            SlotReport(s, NormalSlot, loads) + SlotReport(s, EmissionSlot, loads)
  {
    var mr := if s.usePackedMaps then [MetallicSmoothnessSlot] else [MetallicSlot, RoughnessSlot];
    var b, m := SlotReport(s, BaseColorSlot, loads), MetalRoughReports(s, loads);
    var n, e := SlotReport(s, NormalSlot, loads), SlotReport(s, EmissionSlot, loads);
    assert SlotReports(s, mr, loads) == m by {
      if s.usePackedMaps {
        SlotReportsOne(s, MetallicSmoothnessSlot, loads);
      } else {
        assert mr == [MetallicSlot] + [RoughnessSlot];
        SlotReportsAppend(s, [MetallicSlot], [RoughnessSlot], loads);
        SlotReportsOne(s, MetallicSlot, loads);
        SlotReportsOne(s, RoughnessSlot, loads);
      }
    }
    assert SlotReports(s, [BaseColorSlot] + mr, loads) == b + m by {
      SlotReportsAppend(s, [BaseColorSlot], mr, loads);
      SlotReportsOne(s, BaseColorSlot, loads);
    }
    assert SlotReports(s, [NormalSlot] + [EmissionSlot], loads) == n + e by {
      SlotReportsAppend(s, [NormalSlot], [EmissionSlot], loads);
      SlotReportsOne(s, NormalSlot, loads);
      SlotReportsOne(s, EmissionSlot, loads);
    }
    assert VisitedSlots(s) == ([BaseColorSlot] + mr) + ([NormalSlot] + [EmissionSlot]);
    SlotReportsAppend(s, [BaseColorSlot] + mr, [NormalSlot] + [EmissionSlot], loads);
    assert (b + m) + (n + e) == b + m + n + e;
  }

  lemma SlotReportsOne(s: SettingsValue, slot: ImageSlot, loads: string -> bool)
    ensures SlotReports(s, [slot], loads) == SlotReport(s, slot, loads)
  {
    assert [slot][1..] == [];
  }

  lemma {:induction false} SlotReportsAppend(s: SettingsValue, a: seq<ImageSlot>, b: seq<ImageSlot>, loads: string -> bool)
    ensures SlotReports(s, a + b, loads) == SlotReports(s, a, loads) + SlotReports(s, b, loads)
  {
    if a != [] {
      assert (a + b)[0] == a[0] && (a + b)[1..] == a[1..] + b;
      SlotReportsAppend(s, a[1..], b, loads);
    } else {
      assert a + b == b;
    }
  }

  /**
   * Every report of a build names a visited slot whose image failed to load,
   * every such slot is reported, and no build on a mesh reports a missing mesh.
   */
  lemma BuildReportsFailures(s: SettingsValue, loads: string -> bool)
    ensures forall r :: r in Build(s, loads).reports <==>
              exists slot :: slot in VisitedSlots(s) && Failed(s, slot, loads) && r == CouldNotLoad(Path(s, slot))
    ensures NoMeshSelected !in Build(s, loads).reports
    ensures |Build(s, loads).reports| <= |VisitedSlots(s)|
  {
    BuildReports(s, loads);
    SlotReportsAreFailures(s, VisitedSlots(s), loads);
  }

  /** A report's text gives back the path it names, so two failures under different paths read differently. */
  lemma MessageNamesPath(p: string, q: string)
    requires Message(CouldNotLoad(p)) == Message(CouldNotLoad(q))
    ensures p == q
  {
    var prefix := "Could not load image ";
    assert p == (prefix + p)[|prefix|..];
    assert q == (prefix + q)[|prefix|..];
  }

  /** Every message a build shows is "Could not load image " followed by the path of a visited slot that failed. */
  lemma BuildMessages(s: SettingsValue, loads: string -> bool)
    ensures forall r :: r in Build(s, loads).reports ==>
              exists slot :: slot in VisitedSlots(s) && Failed(s, slot, loads) && Message(r) == "Could not load image " + Path(s, slot)
  {
    BuildReportsFailures(s, loads);
  }
}
