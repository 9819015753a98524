/** What the heat-soak apps read from Home Assistant during one callback:
    entity states and the thermostats' current temperatures.  Callbacks run
    one at a time, so each step reads one snapshot. */
module HomeAssistant {
  import opened Common

  datatype Home = Home(states: map<string, string>, currentTemperatures: map<string, real>)

  /** `get_state(entity)`: None for an unknown entity. */
  function State(h: Home, entity: string): Option<string> {
    if entity in h.states then Some(h.states[entity]) else None
  }

  /** `get_state(entity, attribute="current_temperature")`. */
  function CurrentTemperature(h: Home, entity: string): Option<real> {
    if entity in h.currentTemperatures then Some(h.currentTemperatures[entity]) else None
  }

  /** `get_state(entity) == "on"`. */
  predicate IsOn(h: Home, entity: string) {
    State(h, entity) == Some("on")
  }

  /** `get_state(entity) == "heat"`. */
  predicate InHeat(h: Home, entity: string) {
    State(h, entity) == Some("heat")
  }

  /** `[e for e in entities if get_state(e) == "heat"]`. */
  function HeatQueue(entities: seq<string>, h: Home): (q: seq<string>)
    ensures |q| <= |entities|
    ensures forall i :: 0 <= i < |q| ==> InHeat(h, q[i]) && q[i] in entities
    ensures forall e :: e in entities && InHeat(h, e) ==> e in q
  {
    if entities == [] then []
    else if InHeat(h, entities[0]) then [entities[0]] + HeatQueue(entities[1..], h)
    else HeatQueue(entities[1..], h)
  }

  /** The filter keeps the order of the entity list. */
  lemma {:induction false} HeatQueueAppend(a: seq<string>, b: seq<string>, h: Home)
    ensures HeatQueue(a + b, h) == HeatQueue(a, h) + HeatQueue(b, h)
  {
    if a == [] {
      assert a + b == b;
    } else {
      assert (a + b)[0] == a[0];
      assert (a + b)[1..] == a[1..] + b;
      HeatQueueAppend(a[1..], b, h);
    }
  }

  /** A list without repeats gives a queue without repeats. */
  lemma {:induction false} HeatQueueDistinct(entities: seq<string>, h: Home)
    requires Distinct(entities)
    ensures Distinct(HeatQueue(entities, h))
  {
    if entities != [] {
      assert Distinct(entities[1..]) by {
        forall i, j | 0 <= i < j < |entities[1..]| ensures entities[1..][i] != entities[1..][j] {
          assert entities[1..][i] == entities[i + 1] && entities[1..][j] == entities[j + 1];
        }
      }
      HeatQueueDistinct(entities[1..], h);
      if InHeat(h, entities[0]) {
        var q := HeatQueue(entities[1..], h);
        assert entities[0] !in entities[1..] by {
          forall k | 0 <= k < |entities[1..]| ensures entities[1..][k] != entities[0] {
            assert entities[1..][k] == entities[k + 1];
          }
        }
        assert entities[0] !in q;
        assert forall i, j :: 0 <= i < j < |[entities[0]] + q| ==> ([entities[0]] + q)[i] != ([entities[0]] + q)[j] by {
          forall i, j | 0 <= i < j < |[entities[0]] + q| ensures ([entities[0]] + q)[i] != ([entities[0]] + q)[j] {
            if i == 0 {
              assert ([entities[0]] + q)[j] == q[j - 1];
            } else {
              assert ([entities[0]] + q)[i] == q[i - 1] && ([entities[0]] + q)[j] == q[j - 1];
            }
          }
        }
      }
    }
  }
}
