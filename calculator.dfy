/**
 * One pass of the page: read the sidebar's parameters, three of them through
 * synchronised widgets, and hand them to the pricing model.
 */
module Calculator {
  import opened Widgets
  import opened Pricing

  /**
   * A widget's entries are either not created yet, or both exist with the
   * field's value inside the range and whole in integer mode.
   */
  predicate Settled(s: Session, w: WidgetSpec)
    reads s
  {
    || (w.InputKey() !in s.state && w.SliderKey() !in s.state)
    || (s.Holds(w) && w.InRange(s.state[w.InputKey()]) && s.WholeValues(w))
  }

  /** The six session keys of the sidebar's synchronised widgets, in the order the page creates them. */
  function SidebarKeys(): seq<string> {
    [PriceWidget.InputKey(), PriceWidget.SliderKey(),
     VolumeWidget.InputKey(), VolumeWidget.SliderKey(),
     LifeWidget.InputKey(), LifeWidget.SliderKey()]
  }

  /** No two of the sidebar's widgets share a session key. */
  lemma SidebarKeysDistinct()
    ensures forall a, b | 0 <= a < b < |SidebarKeys()| :: SidebarKeys()[a] != SidebarKeys()[b]
  {
    assert SidebarKeys() == ["price_input", "price_slider", "volume_input", "volume_slider",
                             "life_input", "life_slider"] by {
      assert "price" + "_input" == "price_input" && "price" + "_slider" == "price_slider";
      assert "volume" + "_input" == "volume_input" && "volume" + "_slider" == "volume_slider";
      assert "life" + "_input" == "life_input" && "life" + "_slider" == "life_slider";
    }
  }

  /**
   * The sidebar: the price, the monthly volume and the account lifespan from
   * their synchronised widgets, the four costs from plain number fields. The
   * volume and the lifespan are whole numbers inside their widgets' ranges,
   * hence positive.
   */
  method ReadInputs(s: Session, costRawAccount: real, costTokenPerAcc: real,
                    opexFixed: real, salaryFixed: real) returns (i: Inputs)
    requires Settled(s, PriceWidget) && Settled(s, VolumeWidget) && Settled(s, LifeWidget)
    modifies s
    ensures Settled(s, PriceWidget) && Settled(s, VolumeWidget) && Settled(s, LifeWidget)
    ensures s.Holds(PriceWidget) && s.Holds(VolumeWidget) && s.Holds(LifeWidget)
    ensures i.pricePerMsg == s.state[PriceWidget.InputKey()]
    ensures i.targetMsgsMonth as real == s.state[VolumeWidget.InputKey()]
    ensures i.msgsPerAccount as real == s.state[LifeWidget.InputKey()]
    ensures 1.0 <= i.pricePerMsg <= 15.0
    ensures 10000 <= i.targetMsgsMonth <= 2000000
    ensures 10 <= i.msgsPerAccount <= 200
    ensures i.costRawAccount == costRawAccount && i.costTokenPerAcc == costTokenPerAcc
    ensures i.opexFixed == opexFixed && i.salaryFixed == salaryFixed
    ensures s.state.Keys == old(s.state).Keys + {PriceWidget.InputKey(), PriceWidget.SliderKey(),
      VolumeWidget.InputKey(), VolumeWidget.SliderKey(), LifeWidget.InputKey(), LifeWidget.SliderKey()}
    ensures forall k | k in old(s.state) :: s.state[k] == old(s.state)[k]
    ensures old(s.state) == map[] ==>
      i == Inputs(5.0, 60000, 50, costRawAccount, costTokenPerAcc, opexFixed, salaryFixed)
    ensures (old(s.state) == map[] && costRawAccount == 55.0 && costTokenPerAcc == 5.0 &&
             opexFixed == 67020.0 && salaryFixed == 250000.0) ==> i == DefaultInputs
  {
    SidebarWidgetsWellFormed();
    SidebarKeysDistinct();
    var keys := SidebarKeys();
    assert keys[2] != keys[0] && keys[2] != keys[1] && keys[3] != keys[0] && keys[3] != keys[1];
    assert keys[4] != keys[0] && keys[4] != keys[1] && keys[4] != keys[2] && keys[4] != keys[3];
    assert keys[5] != keys[0] && keys[5] != keys[1] && keys[5] != keys[2] && keys[5] != keys[3];
    ghost var first := old(s.state) == map[];
    var price := SyncOne(s, PriceWidget);
    assert first ==> price == 5.0;
    var volume := SyncOne(s, VolumeWidget);
    assert first ==> volume == 60000.0 by {
      assert IsIntegral(60000.0);
    }
    var life := SyncOne(s, LifeWidget);
    assert first ==> life == 50.0 by {
      assert IsIntegral(50.0);
    }
    i := Inputs(price, volume.Floor, life.Floor,
                costRawAccount, costTokenPerAcc, opexFixed, salaryFixed);
  }

  /**
   * `sync_widget` on a settled widget: the value returned lies in the range
   * (whole in integer mode), and the widget stays settled.
   */
  method SyncOne(s: Session, w: WidgetSpec) returns (val: real)
    requires w.WellFormed() && w.InRange(w.defaultV) && (w.isInt ==> IsIntegral(w.defaultV))
    requires Settled(s, w)
    modifies s
    ensures Settled(s, w)
    ensures s.state.Keys == old(s.state).Keys + {w.InputKey(), w.SliderKey()}
    ensures forall k | k in old(s.state) :: s.state[k] == old(s.state)[k]
    ensures val == s.state[w.InputKey()] && w.InRange(val)
    ensures w.isInt ==> IsIntegral(val)
    ensures w.InputKey() !in old(s.state) ==> val == Cast(w.isInt, w.defaultV)
  {
    val := s.SyncWidget(w);
  }
}
