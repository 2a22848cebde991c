# Default runtime classpath of JBoss server runtimes

This project models the default-classpath loader of the JBoss server tooling
for Eclipse (`DefaultClasspathModelLoader`). The loader computes the classpath
a project targeting a server runtime sees when the user has kept the defaults.
It dispatches on the runtime-type identifier:

- JBoss AS 3.2, AS 4.0/4.2, EAP 4.3, AS 5.0/5.1, EAP 5.0 and AS 6.0 each get a
  fixed, ordered list of filesets. A fileset is a relative path template
  naming a folder of jars, or one jar of a folder.
- Any other runtime type gets the jboss-modules model, but only when the
  runtime's extended properties report the "config-deployments" file
  structure (AS 7 and later).
- Otherwise the result is an empty model.

Files:

- `paths.dfy` (module `Paths`): path templates are names joined with `/`.
  `Join` joins names from the left, the way the loader writes
  `parent + SEP + name`. `Split` cuts at the last separator and is its
  inverse.
- `runtime_types.dfy` (module `RuntimeTypes`): the runtime-type identifiers,
  the extended properties the loader reads, and the `jbossModulesStyle` test.
- `default_classpath_model_loader.dfy` (module `DefaultClasspathModelLoader`):
  - the filesets and the two kinds of model;
  - each generation's layout, written with the resource constants;
  - the dispatch table;
  - the loader's methods. They build each list by appending one fileset
    after another, as the Java code does, and are proved equal to the
    layouts.
- `default_classpath_properties.dfy` (module `DefaultClasspathProperties`):
  what the table promises, proved about the layouts and about the strings
  they stand for.

The resource constants (`LIB`, `CLIENT`, `DEPLOY`, `DEPLOYERS`, `COMMON`,
`JSF_LIB`, the deployer and jar names) and the configuration-directory
variable come from interfaces that are not part of this model. They are the
enumeration `ResourceConstant`, and their text is a parameter
`n: ResourceConstant -> string`. Every result holds for every choice of
`n`. Facts about distinctness and about where a path lies require
`ValidNames(n)`: no constant contains `/`, and no two constants are equal.

The AS 5.0 list has ten entries (lines 117-127), and AS 6.0 adds two more,
for twelve.

`Paths.Split` (cut a path at its last `/`) has no counterpart in the loader,
which never splits a path: it is a proof device, the inverse of `Paths.Join`,
used to say where a path lies and that different name lists give different paths.

## Model

| member | source | states |
|---|---|---|
| Paths.SplitJoin | as/plugins/org.jboss.ide.eclipse.as.classpath.core/src/org/jboss/ide/eclipse/as/classpath/core/runtime/internal/DefaultClasspathModelLoader.java:99-104 | splitting a path joined (`Paths.Join`, the `+ SEP +` concatenations) from separator-free names gives the names back |
| Paths.JoinSplit | as/plugins/org.jboss.ide.eclipse.as.classpath.core/src/org/jboss/ide/eclipse/as/classpath/core/runtime/internal/DefaultClasspathModelLoader.java:99-104 | joining the pieces of any split path gives the path back |
| Paths.JoinInjective | as/plugins/org.jboss.ide.eclipse.as.classpath.core/src/org/jboss/ide/eclipse/as/classpath/core/runtime/internal/DefaultClasspathModelLoader.java:115-126 | two lists of separator-free names that join to the same path are equal |
| Paths.JoinPrefix | as/plugins/org.jboss.ide.eclipse.as.classpath.core/src/org/jboss/ide/eclipse/as/classpath/core/runtime/internal/DefaultClasspathModelLoader.java:99-104 | a joined path starts with each of its leading directories followed by `/` |
| DefaultClasspathModelLoader.GetDefaultAS3Entries | as/plugins/org.jboss.ide.eclipse.as.classpath.core/src/org/jboss/ide/eclipse/as/classpath/core/runtime/internal/DefaultClasspathModelLoader.java:89-95 | the appended AS 3.2 list is the AS 3.2 layout: LIB, CONFIG_DIR/LIB, CLIENT |
| DefaultClasspathModelLoader.GetDefaultAS40Entries | as/plugins/org.jboss.ide.eclipse.as.classpath.core/src/org/jboss/ide/eclipse/as/classpath/core/runtime/internal/DefaultClasspathModelLoader.java:97-107 | the appended AS 4.0 list, written with the deploy path, is the AS 4.0 layout |
| DefaultClasspathModelLoader.GetDefaultEAP43Entries | as/plugins/org.jboss.ide.eclipse.as.classpath.core/src/org/jboss/ide/eclipse/as/classpath/core/runtime/internal/DefaultClasspathModelLoader.java:109-111 | EAP 4.3 yields exactly the AS 4.0 layout |
| DefaultClasspathModelLoader.GetDefaultAS50Entries | as/plugins/org.jboss.ide.eclipse.as.classpath.core/src/org/jboss/ide/eclipse/as/classpath/core/runtime/internal/DefaultClasspathModelLoader.java:113-129 | the appended AS 5.0 list, written with the deploy and deployers paths, is the AS 5.0 layout |
| DefaultClasspathModelLoader.GetDefaultAS60Entries | as/plugins/org.jboss.ide.eclipse.as.classpath.core/src/org/jboss/ide/eclipse/as/classpath/core/runtime/internal/DefaultClasspathModelLoader.java:131-137 | the AS 5.0 list followed by the two added folders is the AS 6.0 layout |
| DefaultClasspathModelLoader.FixedLayout | as/plugins/org.jboss.ide.eclipse.as.classpath.core/src/org/jboss/ide/eclipse/as/classpath/core/runtime/internal/DefaultClasspathModelLoader.java:48-62 | the switch gives a fixed list exactly to the eight listed identifiers, and every such list has at least three entries |
| RuntimeTypes.JBossModulesStyle | as/plugins/org.jboss.ide.eclipse.as.classpath.core/src/org/jboss/ide/eclipse/as/classpath/core/runtime/internal/DefaultClasspathModelLoader.java:81-87 | holds iff the runtime type has extended properties and they report the config-deployments file structure |
| DefaultClasspathModelLoader.GetDefaultRuntimeClasspathModel | as/plugins/org.jboss.ide.eclipse.as.classpath.core/src/org/jboss/ide/eclipse/as/classpath/core/runtime/internal/DefaultClasspathModelLoader.java:45-79 | the loader's result is the default model of the runtime type (fixed list, jboss-modules model or empty) |
| DefaultClasspathProperties.AS3Order | as/plugins/org.jboss.ide.eclipse.as.classpath.core/src/org/jboss/ide/eclipse/as/classpath/core/runtime/internal/DefaultClasspathModelLoader.java:89-95 | AS 3.2 is exactly [LIB, CONFIG_DIR + "/" + LIB, CLIENT] |
| DefaultClasspathProperties.AS40Order | as/plugins/org.jboss.ide.eclipse.as.classpath.core/src/org/jboss/ide/eclipse/as/classpath/core/runtime/internal/DefaultClasspathModelLoader.java:97-107 | AS 4.0 has 6 entries: LIB, CONFIG_DIR/LIB, then three folders starting with CONFIG_DIR/DEPLOY/, then CLIENT |
| DefaultClasspathProperties.AS50Order | as/plugins/org.jboss.ide.eclipse.as.classpath.core/src/org/jboss/ide/eclipse/as/classpath/core/runtime/internal/DefaultClasspathModelLoader.java:113-129 | AS 5.0 has 10 entries: COMMON/LIB, LIB, CONFIG_DIR/LIB first, CLIENT last; entries 3-5 start with CONFIG_DIR/DEPLOY/ and entries 6-8 with CONFIG_DIR/DEPLOYERS/ |
| DefaultClasspathProperties.AS60ExtendsAS50 | as/plugins/org.jboss.ide.eclipse.as.classpath.core/src/org/jboss/ide/eclipse/as/classpath/core/runtime/internal/DefaultClasspathModelLoader.java:131-137 | AS 6.0 is AS 5.0 followed by exactly the RESTEasy deployer folder and then DEPLOYERS/JSF_DEPLOYER/MOJARRA_20/JSF_LIB; AS 5.0 is a strict prefix and the lengths differ by 2 |
| DefaultClasspathProperties.AS50JarFilesets | as/plugins/org.jboss.ide.eclipse.as.classpath.core/src/org/jboss/ide/eclipse/as/classpath/core/runtime/internal/DefaultClasspathModelLoader.java:121-126 | the filtered filesets of AS 5.0 are exactly entries 4, 5 and 8, each with empty name and exclude pattern and its own jar (web-service, JSTL, JSR-299 API) as the include pattern |
| DefaultClasspathProperties.AS40Sections | as/plugins/org.jboss.ide.eclipse.as.classpath.core/src/org/jboss/ide/eclipse/as/classpath/core/runtime/internal/DefaultClasspathModelLoader.java:99-104 | in the AS 4.0 layout, exactly templates 2-4 sit under CONFIG_DIR/DEPLOY |
| DefaultClasspathProperties.AS50Sections | as/plugins/org.jboss.ide.eclipse.as.classpath.core/src/org/jboss/ide/eclipse/as/classpath/core/runtime/internal/DefaultClasspathModelLoader.java:115-126 | in the AS 5.0 layout, exactly templates 3-5 sit under CONFIG_DIR/DEPLOY and exactly 6-8 under CONFIG_DIR/DEPLOYERS |
| DefaultClasspathProperties.AS60Sections | as/plugins/org.jboss.ide.eclipse.as.classpath.core/src/org/jboss/ide/eclipse/as/classpath/core/runtime/internal/DefaultClasspathModelLoader.java:131-136 | in the AS 6.0 layout, exactly 3-5 sit under CONFIG_DIR/DEPLOY, and 6-8 plus the two added ones under CONFIG_DIR/DEPLOYERS |
| DefaultClasspathProperties.AS40DeployBased | as/plugins/org.jboss.ide.eclipse.as.classpath.core/src/org/jboss/ide/eclipse/as/classpath/core/runtime/internal/DefaultClasspathModelLoader.java:99-104 | with valid names, an AS 4.0 entry lies below CONFIG_DIR/DEPLOY if and only if it is one of the three deploy-relative entries |
| DefaultClasspathProperties.AS50DeployBased | as/plugins/org.jboss.ide.eclipse.as.classpath.core/src/org/jboss/ide/eclipse/as/classpath/core/runtime/internal/DefaultClasspathModelLoader.java:115-126 | with valid names, an AS 5.0 entry lies below CONFIG_DIR/DEPLOY if and only if it is entry 3, 4 or 5, and below CONFIG_DIR/DEPLOYERS if and only if it is entry 6, 7 or 8 |
| DefaultClasspathProperties.AS60DeployBased | as/plugins/org.jboss.ide.eclipse.as.classpath.core/src/org/jboss/ide/eclipse/as/classpath/core/runtime/internal/DefaultClasspathModelLoader.java:131-136 | with valid names, the same holds for AS 6.0, whose two added entries also lie below CONFIG_DIR/DEPLOYERS |
| DefaultClasspathProperties.RealizeInjective | as/plugins/org.jboss.ide.eclipse.as.classpath.core/src/org/jboss/ide/eclipse/as/classpath/core/runtime/internal/DefaultClasspathModelLoader.java:117-127 | with valid names, a fileset determines the template it was built from |
| DefaultClasspathProperties.FilesetsDistinct | as/plugins/org.jboss.ide.eclipse.as.classpath.core/src/org/jboss/ide/eclipse/as/classpath/core/runtime/internal/DefaultClasspathModelLoader.java:89-137 | with valid names, a layout that repeats no template gives a list that repeats no fileset |
| DefaultClasspathProperties.FixedListsDistinct | as/plugins/org.jboss.ide.eclipse.as.classpath.core/src/org/jboss/ide/eclipse/as/classpath/core/runtime/internal/DefaultClasspathModelLoader.java:89-137 | with valid names, no fixed list of the table contains the same fileset twice |
| DefaultClasspathProperties.BelowFilesets | as/plugins/org.jboss.ide.eclipse.as.classpath.core/src/org/jboss/ide/eclipse/as/classpath/core/runtime/internal/DefaultClasspathModelLoader.java:99-104 | with valid names, a fileset lies below a directory if and only if its template does |
| DefaultClasspathProperties.SharedLists | as/plugins/org.jboss.ide.eclipse.as.classpath.core/src/org/jboss/ide/eclipse/as/classpath/core/runtime/internal/DefaultClasspathModelLoader.java:51-59 | through `FixedLayout`, AS 4.0, AS 4.2 and EAP 4.3 get one model, and AS 5.0, AS 5.1 and EAP 5.0 get one model, whatever their properties |
| DefaultClasspathProperties.ListedIgnoresProperties | as/plugins/org.jboss.ide.eclipse.as.classpath.core/src/org/jboss/ide/eclipse/as/classpath/core/runtime/internal/DefaultClasspathModelLoader.java:48-69 | a listed type gets a model holding exactly its fixed list (at least three entries), and the extended properties do not change it |
| DefaultClasspathProperties.UnlistedModel | as/plugins/org.jboss.ide.eclipse.as.classpath.core/src/org/jboss/ide/eclipse/as/classpath/core/runtime/internal/DefaultClasspathModelLoader.java:73-87 | any type `FixedLayout` leaves unlisted gets the jboss-modules model if and only if `JBossModulesStyle` holds, that is, if and only if it has extended properties reporting the config-deployments structure, and the empty model otherwise |
| DefaultClasspathProperties.EmptyModelExactly | as/plugins/org.jboss.ide.eclipse.as.classpath.core/src/org/jboss/ide/eclipse/as/classpath/core/runtime/internal/DefaultClasspathModelLoader.java:65-78 | the model is empty exactly for an unlisted type not of the jboss-modules style, and only unlisted types get the jboss-modules model |

## Left out

- The text of the resource constants and of the configuration-directory variable. Their interfaces are not part of this model; the model is parametric in them.
- The internals of `InternalRuntimeClasspathModel`. Its model is the list of path providers it holds: `addProviders` on a fresh model is taken to keep exactly the given providers in order.
- The internals of `JBossModulesDefaultClasspathModel`. They are foreign code; the model records only the runtime type it is built for.
- The extended-properties lookup through `ExtendedServerPropertiesAdapterFactory`. It is foreign code; its answer is an input of the runtime type (`props`). Only the file-structure value matters, as "config-deployments" or anything else.
- How `RuntimePathProviderFileset` resolves a template on disk, and the default include pattern of its one-argument form. The model keeps the template as built.
- Conversion of the `ArrayList` to an array with `toArray`. Arrays that are never updated afterwards are modelled as sequences.
- The runtime-type identifier is a string in the code, and a Java `switch` on a null string throws. The model uses a datatype whose eight listed constructors stand for the eight distinct identifier constants, and the `Unlisted` constructor for every other identifier. A null identifier is not modelled.
- The manifest "Dependencies:" parsing, slot overrides and the module-slot cache. That code lives in `ProjectRuntimeClasspathProvider`, `ModuleSlotCache` and `LayeredProductPathProvider`, which are not part of this model.
- The workspace integration test, the SAR module factory and delegate, and the UI test suite. They are Eclipse job, facet and extension-point glue with no logic of the loader.
