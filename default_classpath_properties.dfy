/** What the default classpath table promises: the order and length of each
    generation's list, which entries live under the deploy and deployers
    directories, which generations share a list, that no list repeats an
    entry, and how the loader chooses between the fixed list, the
    jboss-modules model and the empty model. */
module DefaultClasspathProperties {
  import opened Paths
  import opened RuntimeTypes
  import opened DefaultClasspathModelLoader

  /** The template's folder lies strictly below the directory `parent/child`. */
  predicate Under(t: Template, parent: ResourceConstant, child: ResourceConstant) {
    |t.dir| > 2 && t.dir[0] == parent && t.dir[1] == child
  }

  /** The fileset's folder, split into its names, lies strictly below the
      directory `parent/child`. */
  predicate Below(f: Fileset, parent: string, child: string) {
    var s := Split(Location(f));
    |s| > 2 && s[0] == parent && s[1] == child
  }

  predicate DistinctTemplates(layout: seq<Template>) {
    forall i, j :: 0 <= i < j < |layout| ==> layout[i] != layout[j]
  }

  // ---------------------------------------------------------------------------
  // From templates to filesets.

  /** Distinct constants give distinct lists of names. */
  lemma NamesOfInjective(n: Names, a: seq<ResourceConstant>, b: seq<ResourceConstant>)
    requires ValidNames(n)
    requires NamesOf(n, a) == NamesOf(n, b)
    ensures a == b
  {
    assert |a| == |NamesOf(n, a)| == |NamesOf(n, b)| == |b|;
    forall i | 0 <= i < |a| ensures a[i] == b[i] {
      assert NamesOf(n, a)[i] == n(a[i]);
      assert NamesOf(n, b)[i] == n(b[i]);
    }
  }

  lemma NamesAreSegments(n: Names, d: seq<ResourceConstant>)
    requires ValidNames(n)
    ensures AllSegments(NamesOf(n, d))
  {
  }

  /** The fileset of a template determines the template. */
  lemma RealizeInjective(n: Names, t: Template, u: Template)
    requires ValidNames(n)
    requires Realize(n, t) == Realize(n, u)
    ensures t == u
  {
    NamesAreSegments(n, t.dir);
    NamesAreSegments(n, u.dir);
    JoinInjective(NamesOf(n, t.dir), NamesOf(n, u.dir));
    NamesOfInjective(n, t.dir, u.dir);
  }

  /** A layout without repeated templates gives a list without repeated filesets. */
  lemma FilesetsDistinct(n: Names, layout: seq<Template>)
    requires ValidNames(n)
    requires DistinctTemplates(layout)
    ensures NoDuplicates(Filesets(n, layout))
  {
    var l := Filesets(n, layout);
    forall i, j | 0 <= i < j < |l| ensures l[i] != l[j] {
      if l[i] == l[j] {
        RealizeInjective(n, layout[i], layout[j]);
      }
    }
  }

  /** Splitting a fileset's folder gives back the template's names. */
  lemma SplitRealize(n: Names, t: Template)
    requires ValidNames(n)
    ensures Split(Location(Realize(n, t))) == NamesOf(n, t.dir)
  {
    NamesAreSegments(n, t.dir);
    SplitJoin(NamesOf(n, t.dir));
  }

  /** A fileset lies below a directory only when its template does ... */
  lemma BelowOnlyUnder(n: Names, t: Template, parent: ResourceConstant, child: ResourceConstant)
    requires ValidNames(n)
    ensures Below(Realize(n, t), n(parent), n(child)) ==> Under(t, parent, child)
  {
    var s := NamesOf(n, t.dir);
    SplitRealize(n, t);
    if Below(Realize(n, t), n(parent), n(child)) {
      assert n(t.dir[0]) == s[0] == n(parent);
      assert n(t.dir[1]) == s[1] == n(child);
    }
  }

  /** ... and whenever its template does. */
  lemma UnderIsBelow(n: Names, t: Template, parent: ResourceConstant, child: ResourceConstant)
    requires ValidNames(n)
    ensures Under(t, parent, child) ==> Below(Realize(n, t), n(parent), n(child))
  {
    if Under(t, parent, child) {
      var s := NamesOf(n, t.dir);
      SplitRealize(n, t);
      assert |s| > 2 && s[0] == n(parent) && s[1] == n(child);
    }
  }

  /** The folder of a template below `parent/child` starts with that
      directory's path and the separator. */
  lemma PrefixRealize(n: Names, t: Template, parent: ResourceConstant, child: ResourceConstant)
    requires Under(t, parent, child)
    ensures n(parent) + SEP + n(child) + SEP <= Location(Realize(n, t))
  {
    JoinPrefix(NamesOf(n, t.dir), 2);
    assert NamesOf(n, t.dir)[..2] == [n(parent), n(child)];
    Join2(n(parent), n(child));
  }

  /** Filesets of a concatenation of layouts is the concatenation of their filesets. */
  lemma FilesetsAppend(n: Names, a: seq<Template>, b: seq<Template>)
    ensures Filesets(n, a + b) == Filesets(n, a) + Filesets(n, b)
  {
  }

  // ---------------------------------------------------------------------------
  // Order and length of each list.

  lemma AS3Order(n: Names)
    ensures Filesets(n, AS3Layout()) == [Folder(n(Lib)), Folder(n(ConfigDir) + SEP + n(Lib)), Folder(n(Client))]
  {
    var l := AS3Layout();
    NamesOfShort(n, l[0].dir);
    NamesOfShort(n, l[1].dir);
    NamesOfShort(n, l[2].dir);
    Join2(n(ConfigDir), n(Lib));
  }

  /** AS 4.0: the server's lib first, the client jars last, and the three
      deploy-relative folders in between. */
  lemma AS40Order(n: Names)
    ensures var l := Filesets(n, AS40Layout());
      && |l| == 6
      && l[0] == Folder(n(Lib))
      && l[1] == Folder(n(ConfigDir) + SEP + n(Lib))
      && l[5] == Folder(n(Client))
      && forall i :: 2 <= i < 5 ==> l[i].Folder? && n(ConfigDir) + SEP + n(Deploy) + SEP <= l[i].path
  {
    var t := AS40Layout();
    NamesOfShort(n, t[0].dir);
    NamesOfShort(n, t[1].dir);
    NamesOfShort(n, t[5].dir);
    Join2(n(ConfigDir), n(Lib));
    forall i | 2 <= i < 5 ensures n(ConfigDir) + SEP + n(Deploy) + SEP <= Location(Realize(n, t[i])) {
      PrefixRealize(n, t[i], ConfigDir, Deploy);
    }
  }

  /** AS 5.0: common/lib, lib and the configuration's lib first, the client
      jars last; three deploy-relative and then three deployer-relative
      filesets in between. */
  lemma AS50Order(n: Names)
    ensures var l := Filesets(n, AS50Layout());
      && |l| == 10
      && l[0] == Folder(n(Common) + SEP + n(Lib))
      && l[1] == Folder(n(Lib))
      && l[2] == Folder(n(ConfigDir) + SEP + n(Lib))
      && l[9] == Folder(n(Client))
      && (forall i :: 3 <= i < 6 ==> n(ConfigDir) + SEP + n(Deploy) + SEP <= Location(l[i]))
      && (forall i :: 6 <= i < 9 ==> n(ConfigDir) + SEP + n(Deployers) + SEP <= Location(l[i]))
  {
    var t := AS50Layout();
    NamesOfShort(n, t[0].dir);
    NamesOfShort(n, t[1].dir);
    NamesOfShort(n, t[2].dir);
    NamesOfShort(n, t[9].dir);
    Join2(n(Common), n(Lib));
    Join2(n(ConfigDir), n(Lib));
    forall i | 3 <= i < 6 ensures n(ConfigDir) + SEP + n(Deploy) + SEP <= Location(Realize(n, t[i])) {
      PrefixRealize(n, t[i], ConfigDir, Deploy);
    }
    forall i | 6 <= i < 9 ensures n(ConfigDir) + SEP + n(Deployers) + SEP <= Location(Realize(n, t[i])) {
      PrefixRealize(n, t[i], ConfigDir, Deployers);
    }
  }

  /** AS 6.0 is AS 5.0 followed by exactly two folders: the RESTEasy deployer,
      then the Mojarra 2.0 JSF libraries of the JSF deployer. */
  lemma AS60ExtendsAS50(n: Names)
    ensures Filesets(n, AS60Layout()) == Filesets(n, AS50Layout()) + [
      Folder(n(ConfigDir) + SEP + n(Deployers) + SEP + n(RestEasyDeployer)),
      Folder(n(ConfigDir) + SEP + n(Deployers) + SEP + n(JsfDeployer) + SEP + n(Mojarra20) + SEP + n(JsfLib))]
    ensures Filesets(n, AS50Layout()) < Filesets(n, AS60Layout())
    ensures |Filesets(n, AS60Layout())| == |Filesets(n, AS50Layout())| + 2
  {
    var extra := [FolderAt([ConfigDir, Deployers, RestEasyDeployer]),
                  FolderAt([ConfigDir, Deployers, JsfDeployer, Mojarra20, JsfLib])];
    assert AS60Layout() == AS50Layout() + extra;
    FilesetsAppend(n, AS50Layout(), extra);
    NamesOfShort(n, extra[0].dir);
    NamesOfShort(n, extra[1].dir);
    Join3(n(ConfigDir), n(Deployers), n(RestEasyDeployer));
    Join5(n(ConfigDir), n(Deployers), n(JsfDeployer), n(Mojarra20), n(JsfLib));
  }

  /** The filtered filesets of AS 5.0 are exactly the three single-jar ones:
      no fileset name, no exclude pattern, and the jar's own name as the
      include pattern. */
  lemma AS50JarFilesets(n: Names)
    ensures var l := Filesets(n, AS50Layout());
      && (forall i :: 0 <= i < |l| ==> (l[i].Filtered? <==> i in {4, 5, 8}))
      && (forall i :: 0 <= i < |l| && l[i].Filtered? ==> l[i].name == EMPTY && l[i].excludes == EMPTY)
      && l[4].includes == n(JBossWebServiceJar)
      && l[5].includes == n(JstlJar)
      && l[8].includes == n(Jsr299ApiJar)
      && l[4].folder == l[5].folder == n(ConfigDir) + SEP + n(Deploy) + SEP + n(JBossWebSar)
      && l[8].folder == n(ConfigDir) + SEP + n(Deployers) + SEP + n(WebBeansDeployer)
  {
    var t := AS50Layout();
    NamesOfShort(n, t[4].dir);
    NamesOfShort(n, t[8].dir);
    Join3(n(ConfigDir), n(Deploy), n(JBossWebSar));
    Join3(n(ConfigDir), n(Deployers), n(WebBeansDeployer));
  }

  // ---------------------------------------------------------------------------
  // Exactly which entries are deploy-based and deployer-based.

  /** A fileset of a layout lies below a directory exactly when its template does. */
  lemma BelowFilesets(n: Names, layout: seq<Template>, parent: ResourceConstant, child: ResourceConstant)
    requires ValidNames(n)
    ensures forall i :: 0 <= i < |layout| ==>
      (Below(Filesets(n, layout)[i], n(parent), n(child)) <==> Under(layout[i], parent, child))
  {
    forall i | 0 <= i < |layout|
      ensures Below(Filesets(n, layout)[i], n(parent), n(child)) <==> Under(layout[i], parent, child)
    {
      BelowOnlyUnder(n, layout[i], parent, child);
      UnderIsBelow(n, layout[i], parent, child);
    }
  }

  /** Which templates of each layout lie below the deploy and deployers directories. */
  lemma AS40Sections()
    ensures forall i :: 0 <= i < |AS40Layout()| ==> (Under(AS40Layout()[i], ConfigDir, Deploy) <==> 2 <= i < 5)
  {
  }

  lemma AS50Sections()
    ensures var t := AS50Layout();
      && (forall i :: 0 <= i < |t| ==> (Under(t[i], ConfigDir, Deploy) <==> 3 <= i < 6))
      && (forall i :: 0 <= i < |t| ==> (Under(t[i], ConfigDir, Deployers) <==> 6 <= i < 9))
  {
  }

  lemma AS60Sections()
    ensures var t := AS60Layout();
      && (forall i :: 0 <= i < |t| ==> (Under(t[i], ConfigDir, Deploy) <==> 3 <= i < 6))
      && (forall i :: 0 <= i < |t| ==> (Under(t[i], ConfigDir, Deployers) <==> 6 <= i < 9 || 10 <= i < 12))
  {
  }

  lemma AS40DeployBased(n: Names)
    requires ValidNames(n)
    ensures var l := Filesets(n, AS40Layout());
      forall i :: 0 <= i < |l| ==> (Below(l[i], n(ConfigDir), n(Deploy)) <==> 2 <= i < 5)
  {
    AS40Sections();
    BelowFilesets(n, AS40Layout(), ConfigDir, Deploy);
  }

  lemma AS50DeployBased(n: Names)
    requires ValidNames(n)
    ensures var l := Filesets(n, AS50Layout());
      && (forall i :: 0 <= i < |l| ==> (Below(l[i], n(ConfigDir), n(Deploy)) <==> 3 <= i < 6))
      && (forall i :: 0 <= i < |l| ==> (Below(l[i], n(ConfigDir), n(Deployers)) <==> 6 <= i < 9))
  {
    AS50Sections();
    BelowFilesets(n, AS50Layout(), ConfigDir, Deploy);
    BelowFilesets(n, AS50Layout(), ConfigDir, Deployers);
  }

  lemma AS60DeployBased(n: Names)
    requires ValidNames(n)
    ensures var l := Filesets(n, AS60Layout());
      && (forall i :: 0 <= i < |l| ==> (Below(l[i], n(ConfigDir), n(Deploy)) <==> 3 <= i < 6))
      && (forall i :: 0 <= i < |l| ==> (Below(l[i], n(ConfigDir), n(Deployers)) <==> 6 <= i < 9 || 10 <= i < 12))
  {
    AS60Sections();
    BelowFilesets(n, AS60Layout(), ConfigDir, Deploy);
    BelowFilesets(n, AS60Layout(), ConfigDir, Deployers);
  }

  /** No layout of the table repeats a template. */
  lemma AS50LayoutDistinct()
    ensures DistinctTemplates(AS50Layout())
  {
  }

  lemma AS60LayoutDistinct()
    ensures DistinctTemplates(AS60Layout())
  {
    AS50LayoutDistinct();
    var t := AS60Layout();
    assert t[..10] == AS50Layout();
    assert forall i :: 0 <= i < 10 ==> t[i] != t[10] && t[i] != t[11];
  }

  lemma FixedLayoutsDistinct(id: RuntimeTypeId)
    requires FixedLayout(id).Some?
    ensures DistinctTemplates(FixedLayout(id).value)
  {
    match id
    case As50 | As51 | Eap50 => AS50LayoutDistinct();
    case As60 => AS60LayoutDistinct();
    case _ =>
  }

  /** No fixed list names the same fileset twice. */
  lemma FixedListsDistinct(n: Names, id: RuntimeTypeId)
    requires ValidNames(n)
    requires FixedLayout(id).Some?
    ensures NoDuplicates(Filesets(n, FixedLayout(id).value))
  {
    FixedLayoutsDistinct(id);
    FilesetsDistinct(n, FixedLayout(id).value);
  }

  // ---------------------------------------------------------------------------
  // The dispatch.

  /** AS 4.0, AS 4.2 and EAP 4.3 share one list, and so do AS 5.0, AS 5.1 and EAP 5.0. */
  lemma SharedLists(n: Names, p: Option<ServerProperties>, q: Option<ServerProperties>)
    ensures DefaultModel(n, RuntimeType(As42, q)) == DefaultModel(n, RuntimeType(As40, p))
    ensures DefaultModel(n, RuntimeType(Eap43, q)) == DefaultModel(n, RuntimeType(As40, p))
    ensures DefaultModel(n, RuntimeType(As51, q)) == DefaultModel(n, RuntimeType(As50, p))
    ensures DefaultModel(n, RuntimeType(Eap50, q)) == DefaultModel(n, RuntimeType(As50, p))
  {
  }

  /** A listed runtime type gets its fixed list, whatever its extended properties say. */
  lemma ListedIgnoresProperties(n: Names, rt: RuntimeType, p: Option<ServerProperties>)
    requires !rt.id.Unlisted?
    ensures DefaultModel(n, rt) == Internal(Filesets(n, FixedLayout(rt.id).value))
    ensures |DefaultModel(n, rt).providers| >= 3
    ensures DefaultModel(n, RuntimeType(rt.id, p)) == DefaultModel(n, rt)
  {
  }

  /** Any other runtime type gets the jboss-modules model exactly when it has
      extended properties reporting the config-deployments structure, and
      the empty model otherwise. */
  lemma UnlistedModel(n: Names, rt: RuntimeType)
    requires rt.id.Unlisted?
    ensures DefaultModel(n, rt) == JBossModules(rt) <==>
      rt.props.Some? && rt.props.value.fileStructure == ConfigDeployments
    ensures DefaultModel(n, rt) == Internal([]) <==>
      rt.props.None? || rt.props.value.fileStructure != ConfigDeployments
  {
  }

  /** The model is empty exactly for an unlisted type that is not of the
      jboss-modules style, and only unlisted types get the jboss-modules model. */
  lemma EmptyModelExactly(n: Names, rt: RuntimeType)
    ensures DefaultModel(n, rt) == Internal([]) <==> rt.id.Unlisted? && !JBossModulesStyle(rt)
    ensures DefaultModel(n, rt).JBossModules? ==> rt.id.Unlisted?
  {
  }
}
