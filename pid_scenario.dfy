/** A client of the discipline that goes through its lifecycle with the
    bottleneck configuration of the simulation script: 800 packets of
    capacity, references 175 and 475, and the Kahe 2014 coefficients. What
    it asserts follows from the contracts of PidQueue alone. */
module PidScenario {
  import opened PidControl
  import opened PidQueue

  method BottleneckRun(v: real)
    requires 0.0 <= v < 1.0
  {
    var g := Gains(1.8290, -0.8290, -0.0002556, 0.0005043, -0.0002487, 0.0085);
    var cfg := Config(g, 800, 175, 475, 1.0, 0.00625, 81.0);
    var q := new PidQueueDisc<nat>(cfg, 0, 0, 0);
    var ok := q.CheckConfig();
    assert ok;
    q.InitializeParams();

    // open loop: the first packet is admitted whatever the draw
    ok := q.DoEnqueue(1, v);
    assert ok && q.items == [1];

    // first tick with the queue at the equilibrium reference
    q.CalculateP(175);
    FirstTick(g, 0.0);
    assert q.dropProb == 0.0085;

    // the step to the desired reference, applied twice
    q.QSizeRefUpdate();
    q.QSizeRefUpdate();
    assert q.qSizeRef == 475;

    // a tick with the queue at the new reference keeps the equilibrium ratio
    q.CalculateP(475);
    assert q.errors == [0.0, 0.0];
    EquilibriumDropRatio(g, q.errors);
    assert q.dropProb == 0.0085;

    var r := q.DoDequeue();
    assert r == Some(1) && q.items == [];
    r := q.DoDequeue();
    assert r == None;
  }
}
