/** The default runtime classpath of a server runtime type, used when the user
    has not overridden it: a fixed list of filesets (relative path templates)
    for each JBoss AS generation up to 6.0, a jboss-modules model for the
    modular servers, and an empty model for anything else. */
module DefaultClasspathModelLoader {
  import opened Paths
  import opened RuntimeTypes

  /** The resource-name constants the path templates are made of: the runtime's
      configuration-directory variable and the names of the server's
      directories and jars. */
  datatype ResourceConstant =
    | ConfigDir
    | Lib
    | Client
    | Common
    | Deploy
    | Deployers
    | JsfLib
    | JBossWebDeployer
    | AopJdk5Deployer
    | Ejb3Deployer
    | JBossWebSar
    | JBossWebServiceJar
    | JstlJar
    | As5AopDeployer
    | WebBeansDeployer
    | Jsr299ApiJar
    | RestEasyDeployer
    | JsfDeployer
    | Mojarra20

  /** The text of each constant. Its values are not part of this model; the
      model holds for every choice of them. */
  type Names = ResourceConstant -> string

  /** The constants are single path names, and no two of them are equal. */
  predicate ValidNames(n: Names) {
    (forall k :: IsSegment(n(k))) &&
    (forall a, b :: a != b ==> n(a) != n(b))
  }

  /** A path provider of the default model: a folder whose jars are all on the
      classpath, or a folder filtered by a fileset name and include and
      exclude patterns. */
  datatype Fileset =
    | Folder(path: string)
    | Filtered(name: string, folder: string, includes: string, excludes: string)

  /** The folder a fileset reads from. */
  function Location(f: Fileset): string {
    match f
    case Folder(p) => p
    case Filtered(_, folder, _, _) => folder
  }

  /** The classpath model the loader returns: its own model holding the given
      path providers in order, or the jboss-modules model of the runtime type. */
  datatype ClasspathModel =
    | Internal(providers: seq<Fileset>)
    | JBossModules(runtimeType: RuntimeType)

  predicate NoDuplicates(s: seq<Fileset>) {
    forall i, j :: 0 <= i < j < |s| ==> s[i] != s[j]
  }

  // ---------------------------------------------------------------------------
  // The default layouts, one per server generation, written with the constants.

  /** A non-empty list of constants: the names of a relative folder, outermost first. */
  type Dir = d: seq<ResourceConstant> | |d| >= 1 witness [Lib]

  /** A path template: every jar of a folder, or one named jar of a folder. */
  datatype Template = FolderAt(dir: Dir) | JarAt(dir: Dir, jar: ResourceConstant)

  /** The text of each name of a folder. */
  function NamesOf(n: Names, d: seq<ResourceConstant>): seq<string> {
    seq(|d|, i requires 0 <= i < |d| => n(d[i]))
  }

  /** The fileset a template stands for: the folder's names joined with the
      separator; a one-jar fileset has no name and no exclude pattern, and
      the jar's name is its include pattern. */
  function Realize(n: Names, t: Template): Fileset {
    match t
    case FolderAt(d) => Folder(Join(NamesOf(n, d)))
    case JarAt(d, jar) => Filtered(EMPTY, Join(NamesOf(n, d)), n(jar), EMPTY)
  }

  /** The filesets of a layout, in its order. */
  function Filesets(n: Names, layout: seq<Template>): seq<Fileset> {
    seq(|layout|, i requires 0 <= i < |layout| => Realize(n, layout[i]))
  }

  /** JBoss AS 3.2. */
  function AS3Layout(): seq<Template> {
    [ FolderAt([Lib]),
      FolderAt([ConfigDir, Lib]),
      FolderAt([Client]) ]
  }

  /** JBoss AS 4.0 and 4.2, and EAP 4.3. */
  function AS40Layout(): seq<Template> {
    [ FolderAt([Lib]),
      FolderAt([ConfigDir, Lib]),
      FolderAt([ConfigDir, Deploy, JBossWebDeployer, JsfLib]),
      FolderAt([ConfigDir, Deploy, AopJdk5Deployer]),
      FolderAt([ConfigDir, Deploy, Ejb3Deployer]),
      FolderAt([Client]) ]
  }

  /** JBoss AS 5.0 and 5.1, and EAP 5.0. */
  function AS50Layout(): seq<Template> {
    [ FolderAt([Common, Lib]),
      FolderAt([Lib]),
      FolderAt([ConfigDir, Lib]),
      FolderAt([ConfigDir, Deploy, JBossWebSar, JsfLib]),
      JarAt([ConfigDir, Deploy, JBossWebSar], JBossWebServiceJar),
      JarAt([ConfigDir, Deploy, JBossWebSar], JstlJar),
      FolderAt([ConfigDir, Deployers, As5AopDeployer]),
      FolderAt([ConfigDir, Deployers, Ejb3Deployer]),
      JarAt([ConfigDir, Deployers, WebBeansDeployer], Jsr299ApiJar),
      FolderAt([Client]) ]
  }

  /** JBoss AS 6.0. */
  function AS60Layout(): seq<Template> {
    [ FolderAt([Common, Lib]),
      FolderAt([Lib]),
      FolderAt([ConfigDir, Lib]),
      FolderAt([ConfigDir, Deploy, JBossWebSar, JsfLib]),
      JarAt([ConfigDir, Deploy, JBossWebSar], JBossWebServiceJar),
      JarAt([ConfigDir, Deploy, JBossWebSar], JstlJar),
      FolderAt([ConfigDir, Deployers, As5AopDeployer]),
      FolderAt([ConfigDir, Deployers, Ejb3Deployer]),
      JarAt([ConfigDir, Deployers, WebBeansDeployer], Jsr299ApiJar),
      FolderAt([Client]),
      FolderAt([ConfigDir, Deployers, RestEasyDeployer]),
      FolderAt([ConfigDir, Deployers, JsfDeployer, Mojarra20, JsfLib]) ]
  }

  /** The dispatch table: the layout of a listed runtime type. */
  function FixedLayout(id: RuntimeTypeId): (r: Option<seq<Template>>)
    ensures r.Some? <==> !id.Unlisted?
    ensures r.Some? ==> |r.value| >= 3
  {
    match id
    case As32 => Some(AS3Layout())
    case As40 | As42 | Eap43 => Some(AS40Layout())
    case As50 | As51 | Eap50 => Some(AS50Layout())
    case As60 => Some(AS60Layout())
    case Unlisted(_) => None
  }

  /** The default model of a runtime type. */
  function DefaultModel(n: Names, rt: RuntimeType): ClasspathModel {
    match FixedLayout(rt.id)
    case Some(layout) => Internal(Filesets(n, layout))
    case None => if JBossModulesStyle(rt) then JBossModules(rt) else Internal([])
  }

  /** The names of folders of one to five constants. */
  lemma NamesOfShort(n: Names, d: seq<ResourceConstant>)
    ensures |d| == 1 ==> NamesOf(n, d) == [n(d[0])]
    ensures |d| == 2 ==> NamesOf(n, d) == [n(d[0]), n(d[1])]
    ensures |d| == 3 ==> NamesOf(n, d) == [n(d[0]), n(d[1]), n(d[2])]
    ensures |d| == 4 ==> NamesOf(n, d) == [n(d[0]), n(d[1]), n(d[2]), n(d[3])]
    ensures |d| == 5 ==> NamesOf(n, d) == [n(d[0]), n(d[1]), n(d[2]), n(d[3]), n(d[4])]
  {
  }

  /** The path of a folder of one to five constants, spelled as the loader writes it. */
  lemma PathSpelled(n: Names, d: Dir)
    ensures |d| == 1 ==> Join(NamesOf(n, d)) == n(d[0])
    ensures |d| == 2 ==> Join(NamesOf(n, d)) == n(d[0]) + SEP + n(d[1])
    ensures |d| == 3 ==> Join(NamesOf(n, d)) == n(d[0]) + SEP + n(d[1]) + SEP + n(d[2])
    ensures |d| == 4 ==> Join(NamesOf(n, d)) == n(d[0]) + SEP + n(d[1]) + SEP + n(d[2]) + SEP + n(d[3])
    ensures |d| == 5 ==>
      Join(NamesOf(n, d)) == n(d[0]) + SEP + n(d[1]) + SEP + n(d[2]) + SEP + n(d[3]) + SEP + n(d[4])
  {
    NamesOfShort(n, d);
    if |d| == 2 {
      Join2(n(d[0]), n(d[1]));
    } else if |d| == 3 {
      Join3(n(d[0]), n(d[1]), n(d[2]));
    } else if |d| == 4 {
      Join4(n(d[0]), n(d[1]), n(d[2]), n(d[3]));
    } else if |d| == 5 {
      Join5(n(d[0]), n(d[1]), n(d[2]), n(d[3]), n(d[4]));
    }
  }

  // ---------------------------------------------------------------------------
  // The loader: each list is built by appending one fileset after another.

  method GetDefaultAS3Entries(n: Names) returns (sets: seq<Fileset>)
    ensures sets == Filesets(n, AS3Layout())
  {
    sets := [];
    sets := sets + [Folder(n(Lib))];
    sets := sets + [Folder(n(ConfigDir) + SEP + n(Lib))];
    sets := sets + [Folder(n(Client))];

    forall i | 0 <= i < |sets| ensures sets[i] == Realize(n, AS3Layout()[i]) {
      PathSpelled(n, AS3Layout()[i].dir);
    }
  }

  method GetDefaultAS40Entries(n: Names) returns (sets: seq<Fileset>)
    ensures sets == Filesets(n, AS40Layout())
  {
    sets := [];
    var deployPath := n(ConfigDir) + SEP + n(Deploy);
    sets := sets + [Folder(n(Lib))];
    sets := sets + [Folder(n(ConfigDir) + SEP + n(Lib))];
    sets := sets + [Folder(deployPath + SEP + n(JBossWebDeployer) + SEP + n(JsfLib))];
    sets := sets + [Folder(deployPath + SEP + n(AopJdk5Deployer))];
    sets := sets + [Folder(deployPath + SEP + n(Ejb3Deployer))];
    sets := sets + [Folder(n(Client))];

    forall i | 0 <= i < |sets| ensures sets[i] == Realize(n, AS40Layout()[i]) {
      PathSpelled(n, AS40Layout()[i].dir);
    }
  }

  method GetDefaultEAP43Entries(n: Names) returns (sets: seq<Fileset>)
    ensures sets == Filesets(n, AS40Layout())
  {
    sets := GetDefaultAS40Entries(n);
  }

  method GetDefaultAS50Entries(n: Names) returns (sets: seq<Fileset>)
    ensures sets == Filesets(n, AS50Layout())
  {
    sets := [];
    var deployerPath := n(ConfigDir) + SEP + n(Deployers);
    var deployPath := n(ConfigDir) + SEP + n(Deploy);
    sets := sets + [Folder(n(Common) + SEP + n(Lib))];
    sets := sets + [Folder(n(Lib))];
    sets := sets + [Folder(n(ConfigDir) + SEP + n(Lib))];

    sets := sets + [Folder(deployPath + SEP + n(JBossWebSar) + SEP + n(JsfLib))];
    sets := sets + [Filtered(EMPTY, deployPath + SEP + n(JBossWebSar), n(JBossWebServiceJar), EMPTY)];
    sets := sets + [Filtered(EMPTY, deployPath + SEP + n(JBossWebSar), n(JstlJar), EMPTY)];
    sets := sets + [Folder(deployerPath + SEP + n(As5AopDeployer))];
    sets := sets + [Folder(deployerPath + SEP + n(Ejb3Deployer))];
    sets := sets + [Filtered(EMPTY, deployerPath + SEP + n(WebBeansDeployer), n(Jsr299ApiJar), EMPTY)];
    sets := sets + [Folder(n(Client))];

    forall i | 0 <= i < |sets| ensures sets[i] == Realize(n, AS50Layout()[i]) {
      PathSpelled(n, AS50Layout()[i].dir);
    }
  }

  method GetDefaultAS60Entries(n: Names) returns (sets: seq<Fileset>)
    ensures sets == Filesets(n, AS60Layout())
  {
    sets := [];
    var as50 := GetDefaultAS50Entries(n);
    sets := sets + as50;
    sets := sets + [Folder(n(ConfigDir) + SEP + n(Deployers) + SEP + n(RestEasyDeployer))];
    sets := sets + [Folder(n(ConfigDir) + SEP + n(Deployers) + SEP + n(JsfDeployer) + SEP + n(Mojarra20) + SEP + n(JsfLib))];

    forall i | 0 <= i < |sets| ensures sets[i] == Realize(n, AS60Layout()[i]) {
      if i < |as50| {
        assert AS60Layout()[i] == AS50Layout()[i];
      } else {
        PathSpelled(n, AS60Layout()[i].dir);
      }
    }
  }

  /** The loader's entry point: the listed types get their fixed list, the
      rest the jboss-modules model when they are of that style, and otherwise
      an empty model. */
  method GetDefaultRuntimeClasspathModel(n: Names, rt: RuntimeType) returns (m: ClasspathModel)
    ensures m == DefaultModel(n, rt)
  {
    var providers: Option<seq<Fileset>> := None;
    match rt.id {
      case As32 =>
        var p := GetDefaultAS3Entries(n);
        providers := Some(p);
      case As40 | As42 =>
        var p := GetDefaultAS40Entries(n);
        providers := Some(p);
      case As50 | As51 | Eap50 =>
        var p := GetDefaultAS50Entries(n);
        providers := Some(p);
      case Eap43 =>
        var p := GetDefaultEAP43Entries(n);
        providers := Some(p);
      case As60 =>
        var p := GetDefaultAS60Entries(n);
        providers := Some(p);
      case Unlisted(_) =>
    }

    if providers.Some? {
      var model: seq<Fileset> := [];
      model := model + providers.value;
      return Internal(model);
    }

    if JBossModulesStyle(rt) {
      return JBossModules(rt);
    }

    return Internal([]);
  }
}
