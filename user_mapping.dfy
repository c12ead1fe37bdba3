/**
 * The mapping of user and group names to Guacamole configurations
 * (UserMapping.java): three independently keyed maps, a service name and
 * the query that resolves a user and the user's groups to configurations.
 */
module UserMappings {

  /**
   * A Guacamole configuration: a protocol and its parameters. It is a value,
   * so the copy the source hands out for each resolved configuration is the
   * value itself; a later placeholder substitution on it cannot reach the
   * stored original.
   */
  datatype Configuration = Configuration(protocol: string, parameters: map<string, string>)

  /** The service name a fresh mapping uses (the PAM service "guacamole"). */
  const DefaultServiceName: string := "guacamole"

  /** The contents of a UserMapping object at one moment. */
  datatype MappingValue = MappingValue(
    serviceName: string,
    configNameToConfig: map<string, Configuration>,
    userNameToConfigNames: map<string, set<string>>,
    groupNameToConfigNames: map<string, set<string>>)

  /** The contents of a freshly constructed UserMapping. */
  const EmptyMapping: MappingValue := MappingValue(DefaultServiceName, map[], map[], map[])

  /** The configuration names registered under `key`; nothing when `key` is absent. */
  function Refs(m: map<string, set<string>>, key: string): set<string>
  {
    if key in m then m[key] else {}
  }

  /** The union of the reference sets of the listed groups, taken in list order. */
  function GroupRefs(groups: map<string, set<string>>, groupNames: seq<string>): set<string>
  {
    if groupNames == [] then {}
    else GroupRefs(groups, groupNames[..|groupNames| - 1]) + Refs(groups, groupNames[|groupNames| - 1])
  }

  /** Every configuration name the user or one of the listed groups refers to. */
  function Candidates(m: MappingValue, userName: string, groupNames: seq<string>): set<string>
  {
    Refs(m.userNameToConfigNames, userName) + GroupRefs(m.groupNameToConfigNames, groupNames)
  }

  /**
   * The configurations a user with the given groups may use: the referenced
   * names that are defined, each with its stored configuration.
   */
  function Resolve(m: MappingValue, userName: string, groupNames: seq<string>): (r: map<string, Configuration>)
    ensures r.Keys <= m.configNameToConfig.Keys
    ensures forall n :: n in r ==> r[n] == m.configNameToConfig[n]
  {
    map n | n in Candidates(m, userName, groupNames) && n in m.configNameToConfig :: m.configNameToConfig[n]
  }

  /** A name is in the group union exactly when one of the listed, known groups refers to it. */
  lemma {:induction false} GroupRefsMembership(groups: map<string, set<string>>, groupNames: seq<string>, n: string)
    ensures n in GroupRefs(groups, groupNames)
        <==> exists g :: g in groupNames && g in groups && n in groups[g]
  {
    if groupNames != [] {
      var k := |groupNames| - 1;
      var prefix := groupNames[..k];
      GroupRefsMembership(groups, prefix, n);
      assert groupNames == prefix + [groupNames[k]];
      if n in GroupRefs(groups, groupNames) {
        if n in GroupRefs(groups, prefix) {
          var g :| g in prefix && g in groups && n in groups[g];
          assert g in groupNames;
        } else {
          assert groupNames[k] in groupNames;
        }
      }
      if exists g :: g in groupNames && g in groups && n in groups[g] {
        var g :| g in groupNames && g in groups && n in groups[g];
        if g != groupNames[k] {
          assert g in prefix;
        }
      }
    }
  }

  /**
   * The key set of a resolution is (refs(user) ∪ ⋃ refs(group)) ∩ defined
   * names: a missing user or group adds nothing, and a dangling reference
   * is dropped without failing.
   */
  lemma ResolveMembership(m: MappingValue, userName: string, groupNames: seq<string>, n: string)
    ensures n in Resolve(m, userName, groupNames)
        <==> n in m.configNameToConfig
             && ((userName in m.userNameToConfigNames && n in m.userNameToConfigNames[userName])
                 || exists g :: g in groupNames && g in m.groupNameToConfigNames && n in m.groupNameToConfigNames[g])
  {
    GroupRefsMembership(m.groupNameToConfigNames, groupNames, n);
  }

  /** The resolution depends on the set of group names only, not on their order or repetitions. */
  lemma ResolveIgnoresGroupOrder(m: MappingValue, userName: string, groupNames1: seq<string>, groupNames2: seq<string>)
    requires forall g :: g in groupNames1 <==> g in groupNames2
    ensures Resolve(m, userName, groupNames1) == Resolve(m, userName, groupNames2)
  {
    forall n
      ensures n in GroupRefs(m.groupNameToConfigNames, groupNames1) <==> n in GroupRefs(m.groupNameToConfigNames, groupNames2)
    {
      GroupRefsMembership(m.groupNameToConfigNames, groupNames1, n);
      GroupRefsMembership(m.groupNameToConfigNames, groupNames2, n);
    }
    assert Candidates(m, userName, groupNames1) == Candidates(m, userName, groupNames2);
  }

  /** A user with configuration A in a group with configuration B gets exactly A and B. */
  lemma UnionExample(a: Configuration, b: Configuration)
    ensures var m := MappingValue(DefaultServiceName, map["A" := a, "B" := b],
                                  map["alice" := {"A"}], map["staff" := {"B"}]);
            Resolve(m, "alice", ["staff"]) == map["A" := a, "B" := b]
  {
  }

  /** A reference to an undefined configuration yields an empty result, not an error. */
  lemma DanglingExample(configs: map<string, Configuration>)
    requires "ghost" !in configs
    ensures Resolve(MappingValue(DefaultServiceName, configs, map["alice" := {"ghost"}], map[]), "alice", []) == map[]
  {
  }

  /** A UserMapping object: the service name and the three maps, filled in by the parser. */
  class UserMapping {
    var serviceName: string
    var configNameToConfig: map<string, Configuration>
    var userNameToConfigNames: map<string, set<string>>
    var groupNameToConfigNames: map<string, set<string>>

    /** The object's contents as a value. */
    function Value(): MappingValue
      reads this
    {
      MappingValue(serviceName, configNameToConfig, userNameToConfigNames, groupNameToConfigNames)
    }

    /** A fresh mapping has the service name "guacamole" and no entries. */
    constructor ()
      ensures Value() == EmptyMapping
    {
      serviceName := DefaultServiceName;
      configNameToConfig := map[];
      userNameToConfigNames := map[];
      groupNameToConfigNames := map[];
    }

    /** The service name, the name of the PAM service to authenticate against. */
    function GetServiceName(): string
      reads this
    {
      serviceName
    }

    /** Replaces the service name; nothing else changes. */
    method SetServiceName(name: string)
      modifies this
      ensures Value() == old(Value()).(serviceName := name)
    {
      serviceName := name;
    }

    /** Stores `config` under `configName`, replacing an earlier one; nothing else changes. */
    method AddConfig(configName: string, config: Configuration)
      modifies this
      ensures Value() == old(Value()).(configNameToConfig := old(configNameToConfig)[configName := config])
    {
      configNameToConfig := configNameToConfig[configName := config];
    }

    /** Stores the user's reference set, replacing an earlier one; nothing else changes. */
    method AddUser(userName: string, configNames: set<string>)
      modifies this
      ensures Value() == old(Value()).(userNameToConfigNames := old(userNameToConfigNames)[userName := configNames])
    {
      userNameToConfigNames := userNameToConfigNames[userName := configNames];
    }

    /** Stores the group's reference set, replacing an earlier one; nothing else changes. */
    method AddGroup(groupName: string, configNames: set<string>)
      modifies this
      ensures Value() == old(Value()).(groupNameToConfigNames := old(groupNameToConfigNames)[groupName := configNames])
    {
      groupNameToConfigNames := groupNameToConfigNames[groupName := configNames];
    }

    /**
     * The configurations of a user with the given groups: first the union of
     * the reference sets, then a copy of each defined configuration. The
     * object is not changed.
     */
    method GetConfigurations(userName: string, groupNames: seq<string>) returns (configs: map<string, Configuration>)
      ensures configs == Resolve(Value(), userName, groupNames)
    {
      var configNames: set<string> := {};
      if userName in userNameToConfigNames {
        configNames := configNames + userNameToConfigNames[userName];
      }
      for i := 0 to |groupNames|
        invariant configNames == Refs(userNameToConfigNames, userName) + GroupRefs(groupNameToConfigNames, groupNames[..i])
      {
        assert groupNames[..i + 1][..i] == groupNames[..i];
        var groupName := groupNames[i];
        if groupName in groupNameToConfigNames {
          configNames := configNames + groupNameToConfigNames[groupName];
        }
      }
      assert groupNames[..|groupNames|] == groupNames;

      configs := map[];
      var remaining := configNames;
      while remaining != {}
        invariant remaining <= configNames
        invariant forall n :: n in configs <==> n in configNames - remaining && n in configNameToConfig
        invariant forall n :: n in configs ==> configs[n] == configNameToConfig[n]
        decreases remaining
      {
        var configName :| configName in remaining;
        if configName in configNameToConfig {
          configs := configs[configName := configNameToConfig[configName]];
        }
        remaining := remaining - {configName};
      }
    }
  }
}
