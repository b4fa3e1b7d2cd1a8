/** `checkProjectType`: a chain of manifest tests, each returning as soon as
    it matches, with any failed read or parse, or no match at all, giving
    `unknown`. The workspace searches and reads are inputs: for each manifest
    kind, the first file found, if any, and whether it could be read. */
module CheckProject {
  import opened Strings
  import opened Types

  /** The first manifest of a kind the search found. */
  datatype Manifest = Absent | Unreadable | Text(content: string)

  /** The first `package.json`: absent, unreadable or not JSON, or the keys
      of its `dependencies` whose values are truthy. */
  datatype Package = NoPackage | BadPackage | Dependencies(keys: set<string>)

  datatype Workspace = Workspace(pom: Manifest, gradle: Manifest, gradleKts: Manifest, package: Package, goMod: Manifest)

  /** The marker both build-file tests look for. */
  const SpringMarker: string := "springBoot-starter-web"
  const GinModule: string := "github.com/gin-gonic/gin"
  const EchoModule: string := "github.com/labstack/echo"

  /** `build.gradle` if there is one, else `build.gradle.kts`. */
  function GradleFile(w: Workspace): Manifest {
    if !w.gradle.Absent? then w.gradle else w.gradleKts
  }

  /** The pom, then the Gradle build file, then `package.json`, then
      `go.mod`; a read or parse that fails ends the chain with `unknown`. */
  function CheckProjectType(w: Workspace): ProjectType {
    if w.pom.Unreadable? then Unknown
    else if w.pom.Text? && Contains(w.pom.content, SpringMarker) then SpringBoot
    else if GradleFile(w).Unreadable? then Unknown
    else if GradleFile(w).Text? && Contains(GradleFile(w).content, SpringMarker) then SpringBoot
    else if w.package.BadPackage? then Unknown
    else if w.package.Dependencies? && "express" in w.package.keys then Express
    else if w.package.Dependencies? && "@nestjs/core" in w.package.keys then Nest
    else if w.goMod.Unreadable? then Unknown
    else if w.goMod.Text? && Contains(w.goMod.content, GinModule) then Gin
    else if w.goMod.Text? && Contains(w.goMod.content, EchoModule) then Echo
    else Unknown
  }

  // ---------------------------------------------------------------- properties

  /** The chain only ever answers one of six types, never `fastapi`. */
  lemma Answers(w: Workspace)
    ensures CheckProjectType(w) in {SpringBoot, Express, Nest, Gin, Echo, Unknown}
  {
  }

  /** A pom with the marker decides before any other manifest is consulted:
      workspaces that share the pom get the same answer. */
  lemma PomFirst(w: Workspace, w': Workspace)
    requires w.pom == w'.pom && w.pom.Text? && Contains(w.pom.content, SpringMarker)
    ensures CheckProjectType(w) == SpringBoot && CheckProjectType(w') == SpringBoot
  {
  }

  /** A pom that cannot be read ends the chain with `unknown`, whatever else
      the workspace holds. */
  lemma PomErrorIsUnknown(w: Workspace)
    requires w.pom.Unreadable?
    ensures CheckProjectType(w) == Unknown
  {
  }

  /** When `build.gradle` exists, `build.gradle.kts` is never read. */
  lemma GradlePreferred(w: Workspace, kts: Manifest)
    requires !w.gradle.Absent?
    ensures CheckProjectType(w) == CheckProjectType(w.(gradleKts := kts))
  {
  }

  /** Neither build file fails or carries the marker. */
  predicate BuildFilesPass(w: Workspace) {
    && (w.pom.Absent? || (w.pom.Text? && !Contains(w.pom.content, SpringMarker)))
    && (GradleFile(w).Absent? || (GradleFile(w).Text? && !Contains(GradleFile(w).content, SpringMarker)))
  }

  /** `package.json` is missing, or names neither framework. */
  predicate PackagePasses(w: Workspace) {
    w.package.NoPackage? || (w.package.Dependencies? && "express" !in w.package.keys && "@nestjs/core" !in w.package.keys)
  }

  /** A package listing both `express` and `@nestjs/core` is an Express
      project, once the build files have not decided. */
  lemma ExpressBeforeNest(w: Workspace)
    requires BuildFilesPass(w)
    requires w.package.Dependencies? && "express" in w.package.keys && "@nestjs/core" in w.package.keys
    ensures CheckProjectType(w) == Express
  {
  }

  /** A `go.mod` naming both frameworks is a Gin project, once nothing
      before it has decided. */
  lemma GinBeforeEcho(w: Workspace)
    requires BuildFilesPass(w) && PackagePasses(w)
    requires w.goMod.Text? && Contains(w.goMod.content, GinModule) && Contains(w.goMod.content, EchoModule)
    ensures CheckProjectType(w) == Gin
  {
  }

  /** A workspace without any manifest is `unknown`. */
  lemma NoManifestIsUnknown(w: Workspace)
    requires w.pom.Absent? && w.gradle.Absent? && w.gradleKts.Absent? && w.package.NoPackage? && w.goMod.Absent?
    ensures CheckProjectType(w) == Unknown
  {
  }

  /** The marker is spelt `springBoot`, so a pom declaring the real
      `spring-boot-starter-web` artifact and nothing else is not detected. */
  lemma RealStarterMissed()
    ensures CheckProjectType(Workspace(Text("spring-boot-starter-web"), Absent, Absent, NoPackage, Absent)) == Unknown
  {
    var c := "spring-boot-starter-web";
    forall p | 0 <= p && p + |SpringMarker| <= |c| ensures !StartsAt(c, p, SpringMarker) {
      assert c[p + 6] != SpringMarker[6];
    }
  }
}
