/**
 * The fixed table of `_map_transmission_rate`: the transmission-rate texts
 * of the J1939 Digital Annex the catalog builder recognises, each with the
 * period in milliseconds it is given, in the order of the source's `match`
 * cases (lines 21 to 222 of `src/akrocansim/J1939.py`). The table is split
 * in chunks of ten entries.
 */
module TransmissionRates {
  import opened Wrappers
  import opened Text

  const Rates0: seq<(string, nat)> := [
    ("To engine: Control Purpose dependent or 10 ms_x000D_\nTo retarder: 50 ms", 50),  // line 21
    ("When active; 50 ms to transmission and axles", 50),  // line 23
    ("When active: 20 ms; else 200 ms", 20),  // line 25
    ("100 ms", 10),  // line 27
    ("Manufacturer defined, not faster than 20 ms", 50),  // line 29
    ("Every 100 ms and on change but no faster than 20 ms", 100),  // line 31
    ("Every 50ms and if SPN 5681 \"Driver activation demand for Advanced Emergency Braking System\" has changed but no faster than every 10 ms", 500),  // line 33
    ("50 ms", 50),  // line 35
    ("20 ms", 20),  // line 37
    ("Every 100 ms and on change of state but no faster than every 10 ms.", 100)  // line 39
  ]

  const Rates1: seq<(string, nat)> := [
    ("Engine speed dependent", 50),  // line 41
    ("200 ms", 200),  // line 43
    ("As required", 5000),  // line 45
    ("1 s", 1000),  // line 47
    ("Every 10 s and on change but no faster than 100 ms.", 10000),  // line 49
    ("On request", 5000),  // line 51
    ("Every 1 s and on change but no faster than 100 ms", 1000),  // line 53
    ("Every 1 s and on change of state but no faster than every 100 ms.", 1000),  // line 55
    ("As needed", 5000),  // line 57
    ("As required but no faster than once every 100 ms.", 5000)  // line 59
  ]

  const Rates2: seq<(string, nat)> := [
    ("Every 10 s and on change but no faster than 1 s.", 10000),  // line 61
    ("On powerup and on request", 5000),  // line 63
    ("As required but no more often than 500 ms", 5000),  // line 65
    ("Every 10 s and on change of state, but not faster than 1 s.  Every second when in tuning mode.", 10000),  // line 67
    ("Every 10 s and on change of state, but not faster than every 1 s.", 10000),  // line 69
    ("manufacturer defined, not faster than 100 ms", 5000),  // line 71
    ("Manufacturer defined, not faster than 100 ms", 5000),  // line 73
    ("On event", 5000),  // line 75
    ("5 s", 5000),  // line 77
    ("Every 5 s and on change of state but no faster than every 100 ms", 5000)  // line 79
  ]

  const Rates3: seq<(string, nat)> := [
    ("100 ms when active", 100),  // line 81
    ("This message is transmitted in response to an Anti-Theft Request message. This message is also sent when the component has an abnormal power interruption.  In this situation the Anti-Theft Status Report is sent without the Anti-Theft Request.", 5000),  // line 83
    ("Transmission of this message is interrupt driven.  This message is also transmitted upon power-up of the interfacing device sending this message.", 5000),  // line 85
    ("When needed", 5000),  // line 87
    ("10 ms", 10),  // line 89
    ("50 ms (preferred) or Engine Speed Dependent (if required by application)", 50),  // line 91
    ("500 ms", 500),  // line 93
    ("50 ms (only when active)", 50),  // line 95
    ("20 ms when torque converter unlocked, 100 ms when torque converter locked", 20),  // line 97
    ("Engine speed dependent when there is no combustion, once every 5 s otherwise.", 50)  // line 99
  ]

  const Rates4: seq<(string, nat)> := [
    ("Engine speed dependent when knock present, once every 5 s otherwise.", 50),  // line 101
    ("Transmitted only after requested.  After request, broadcast rate is engine speed dependent.  Update stopped after key switch cycle.", 50),  // line 103
    ("Transmitted every 20 ms for the first 100 ms and then broadcast every 1 s for 10 s in case of a crash event", 20),  // line 105
    ("10 ms (default) or 20 ms", 10),  // line 107
    ("Every 50ms and on change of \"AEBS state\" or change of \"Collision warning level\" but no faster than every 10 ms", 50),  // line 109
    ("100 ms or on change, but no faster than 20 ms.", 100),  // line 111
    ("Engine Speed Dependent when active, otherwise every 1 s.", 50),  // line 113
    ("Engine Speed Dependent", 50),  // line 115
    ("Default broadcast rate of 20 ms unless the sending device has received Engine Start Control Message Rate (SPN 7752) from the engine start arbitrator indicating a switch to 250 ms or on change, but no faster than 20 ms.", 20),  // line 117
    ("Default broadcast rate of 20 ms unless the arbitrator is transmitting Engine Start Control Message Rate (SPN 7752) indicating a switch to 250 ms or on change, but no faster than 20 ms.", 20)  // line 119
  ]

  const Rates5: seq<(string, nat)> := [
    ("10 sec", 10000),  // line 121
    ("30 sec", 30000),  // line 123
    ("250 ms (preferred) or Engine Speed Dependent (if required by application)", 250),  // line 125
    ("Every 1 s and on change of any parameter but no faster than 100 ms.", 1000),  // line 127
    ("Every 1s and on change in any door command but no faster than 100 ms", 1000),  // line 129
    ("Every 1s and on change in any door latch status but no faster than 100 ms", 1000),  // line 131
    ("10 s", 10000),  // line 133
    ("250 ms", 250),  // line 135
    ("Transmitted only after requested.  After request, broadcast rate is 1 s.  Update stopped after key switch cycle.", 1000),  // line 137
    ("Every 10 s and on change, but no faster than 1 s.", 10000)  // line 139
  ]

  const Rates6: seq<(string, nat)> := [
    ("Every 500 ms and on change but no faster than 50 ms.", 500),  // line 141
    ("Every 500 ms and on change but no faster than 20 ms", 500),  // line 143
    ("1 s and on change of any switched power output status but no faster than once every 25 ms.", 1000),  // line 145
    ("1 s and on change of any fused power output status but no faster than once every 25 ms.", 1000),  // line 147
    ("1 s_x000D_\n_x000D_\nNote: Systems developed to the standard published before June, 2014 might not be transmitted at a 1 s rate, but be transmitted on request.", 1000),  // line 149
    ("1 s._x000D_\n_x000D_\nNote: Systems developed to the standard published before June, 2015 might not be transmitted at a 1 s rate, but be transmitted on request.", 1000),  // line 151
    ("30 s", 30000),  // line 153
    ("Every 5 s and on change of torque/speed points of more than 10% since last transmission but no faster than every 500 ms", 5000),  // line 155
    ("Every 1 s and on change of state but no faster than every 100 ms", 1000),  // line 157
    ("On start-up, and every 1 s until the dewpoint signal state = 1 (SPN 3240) has been received by the transmitter", 1000)  // line 159
  ]

  const Rates7: seq<(string, nat)> := [
    ("On start-up, and every 1 s until the dewpoint signal state = 1 (SPN 3239) has been received by the transmitter", 1000),  // line 161
    ("On start-up, and every 1 s until the dewpoint signal state = 1 (SPN 3238) has been received by the transmitter", 1000),  // line 163
    ("On start-up, and every 1 s until the dewpoint signal state = 1 (SPN 3237) has been received by the transmitter", 1000),  // line 165
    ("Transmitted every 5 s and on change of PGN 64791 but no faster than every 250 ms", 5000),  // line 167
    ("Every 100 ms and on change of state, but no faster than every 20 ms.  Grandfathered definition for systems that implemented this message prior to July, 2010: Every 100 ms or on change of state, but no faster than every 20 ms", 100),  // line 169
    ("Every 100 ms and on change of state, but no faster than every 20 ms. Grandfathered definition for systems that implemented this message prior to July, 2010: Every 100 ms or on change of state, but no faster than every 20 ms", 100),  // line 171
    ("On request.  Upon request, will be broadcast as many times as required to transmit all available axle groups.", 5000),  // line 173
    ("As needed.  Broadcast whenever an axle group equipped with an on-board scale joined or left the on-board scale subset.", 5000),  // line 175
    ("Every 1 s while active and on change of state but no faster than every 100 ms.  Grandfathered definition for systems that implemented this message prior to July, 2010:  1 s when active and on change of state", 1000),  // line 177
    ("Every 1 s and on change of state but no faster than every 100 ms.  Grandfathered definition for systems that implemented this message prior to July, 2010:  1 s and on change", 1000)  // line 179
  ]

  const Rates8: seq<(string, nat)> := [
    ("Every 1 s and on change of state but no faster than every 100 ms.  Grandfathered definition for systems that implemented this message prior to July, 2010:  1 s or on change", 1000),  // line 181
    ("250 ms or on change of any state-based parameter but no faster than 20 ms", 250),  // line 183
    ("100 ms (preferred) or Engine Speed Dependent (if required by application)", 100),  // line 185
    ("On Request", 5000),  // line 187
    ("0.5 s", 500),  // line 189
    ("Every 1 s and on change of switch state but no faster than every 100 ms", 1000),  // line 191
    ("Every 10 s and on change of state but no faster than every 100 ms.  Grandfathered definition for systems that implemented this message prior to July, 2010: On change or every 10 s", 10000),  // line 193
    ("Every 100 ms and on change of state but no faster than every 20 ms.  Grandfathered definition for systems that implemented this message prior to July, 2010: 100 ms or on change, not to exceed 20 ms", 100),  // line 195
    ("1 s or on change of state-based parameters but no faster than 100 ms.", 1000),  // line 197
    ("1 s, when active", 1000)  // line 199
  ]

  const Rates9: seq<(string, nat)> := [
    ("As requested.", 5000),  // line 201
    ("On request or sender may transmit every 5 s until acknowledged by reception of the engine configuration message PGN 65251 SPN 7828.", 5000),  // line 203
    ("500 ms or upon state change, but not faster than 100 ms.", 500),  // line 205
    ("100ms", 100),  // line 207
    ("100 ms_x000D_\n_x000D_\nNote: Systems developed to the standard published before January, 2015 transmit at a 1s rate.", 100),  // line 209
    ("100ms or upon state change, but not faster than 20 ms.", 100),  // line 211
    ("1s", 1000),  // line 213
    ("Every 1 s and on change of state but no faster than every 100 ms._x000D_\n_x000D_\nGrandfathered definition for systems that implemented this message prior to July, 2010: 1 s when active; or on change of state", 1000),  // line 215
    ("1 s_x000D_\n_x000D_\nNote: Systems developed to the standard published before June, 2015 might not be transmitted at a 1 s rate, but be transmitted on request.", 1000),  // line 217
    ("1 s_x000D_\n_x000D_\nNote: Systems developed to the standard published before SEP2015 transmit at a 5s rate.", 5000)  // line 219
  ]

  const Rates10: seq<(string, nat)> := [
    ("10 s or on change but no more often than 1s", 1000)  // line 221
  ]

  /** The cases after the first ten. */
  const LaterRates: seq<(string, nat)> := Rates1 + Rates2 + Rates3 + Rates4 + Rates5 + Rates6 + Rates7 + Rates8 + Rates9 + Rates10

  /** Every case of the `match`, first case first. */
  const RateTable: seq<(string, nat)> := Rates0 + LaterRates

  /** Every period of a table is at least one millisecond. */
  predicate PositivePeriods(t: seq<(string, nat)>) {
    forall i :: 0 <= i < |t| ==> t[i].1 > 0
  }

  lemma PositiveAppend(a: seq<(string, nat)>, b: seq<(string, nat)>)
    requires PositivePeriods(a) && PositivePeriods(b)
    ensures PositivePeriods(a + b)
  {
    forall i | 0 <= i < |a + b| ensures (a + b)[i].1 > 0 {
      if i >= |a| {
        assert (a + b)[i] == b[i - |a|];
      }
    }
  }

  lemma Rates0Positive()
    ensures PositivePeriods(Rates0)
  {
  }

  lemma Rates1Positive()
    ensures PositivePeriods(Rates1)
  {
  }

  lemma Rates2Positive()
    ensures PositivePeriods(Rates2)
  {
  }

  lemma Rates3Positive()
    ensures PositivePeriods(Rates3)
  {
  }

  lemma Rates4Positive()
    ensures PositivePeriods(Rates4)
  {
  }

  lemma Rates5Positive()
    ensures PositivePeriods(Rates5)
  {
  }

  lemma Rates6Positive()
    ensures PositivePeriods(Rates6)
  {
  }

  lemma Rates7Positive()
    ensures PositivePeriods(Rates7)
  {
  }

  lemma Rates8Positive()
    ensures PositivePeriods(Rates8)
  {
  }

  lemma Rates9Positive()
    ensures PositivePeriods(Rates9)
  {
  }

  lemma Rates10Positive()
    ensures PositivePeriods(Rates10)
  {
  }

  /** The table gives every recognised text a period of at least one millisecond. */
  lemma RateTablePositive()
    ensures PositivePeriods(RateTable)
  {
    Rates0Positive(); Rates1Positive(); Rates2Positive(); Rates3Positive();
    Rates4Positive(); Rates5Positive(); Rates6Positive(); Rates7Positive();
    Rates8Positive(); Rates9Positive(); Rates10Positive();
    PositiveAppend(Rates1, Rates2);
    PositiveAppend(Rates1 + Rates2, Rates3);
    PositiveAppend(Rates1 + Rates2 + Rates3, Rates4);
    PositiveAppend(Rates1 + Rates2 + Rates3 + Rates4, Rates5);
    PositiveAppend(Rates1 + Rates2 + Rates3 + Rates4 + Rates5, Rates6);
    PositiveAppend(Rates1 + Rates2 + Rates3 + Rates4 + Rates5 + Rates6, Rates7);
    PositiveAppend(Rates1 + Rates2 + Rates3 + Rates4 + Rates5 + Rates6 + Rates7, Rates8);
    PositiveAppend(Rates1 + Rates2 + Rates3 + Rates4 + Rates5 + Rates6 + Rates7 + Rates8, Rates9);
    PositiveAppend(Rates1 + Rates2 + Rates3 + Rates4 + Rates5 + Rates6 + Rates7 + Rates8 + Rates9, Rates10);
    PositiveAppend(Rates0, LaterRates);
  }

  /**
   * `_map_transmission_rate`: the period of the first case whose text is
   * `rate`; `None`, or a text of no case, gives `None`. A period is never
   * zero, so a transmit loop always waits between frames.
   */
  function MapTransmissionRate(rate: Option<string>): (ms: Option<nat>)
    ensures rate.None? ==> ms.None?
    ensures ms.Some? ==> ms.value > 0
  {
    if rate.None? then None
    else
      RateTablePositive();
      FirstMatch(RateTable, rate.value)
  }

  /** Among the first ten cases, "100 ms" is the fourth, with period 10. */
  lemma HundredMillisecondsInFirstCases()
    ensures FirstMatch(Rates0, "100 ms") == Some(10)
  {
    assert Rates0[3] == ("100 ms", 10);
    assert forall i :: 0 <= i < 3 ==> Rates0[i].0 != "100 ms";
  }

  /** The text "100 ms" is given 10 ms, not 100 ms. */
  lemma HundredMillisecondsQuirk()
    ensures MapTransmissionRate(Some("100 ms")) == Some(10)
  {
    HundredMillisecondsInFirstCases();
    FirstMatchAppend(Rates0, LaterRates, "100 ms");
  }
}
