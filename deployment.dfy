/** The deployment agent: writes the pipeline to `.gitlab-ci.yml` on the main branch of the
    GitLab project (updating the file, or creating it when that fails), and on request makes
    sure an Artifact Registry repository and a Cloud Run service exist for the project, fetching
    each first and creating it only when the fetch fails. The GitLab project and the Google
    Cloud project are objects whose state the agent changes; the failures of their calls are
    given as parameters. */
module Deployment {
  import opened Wrappers
  import opened Json
  import opened Strings
  import opened GitLab
  import opened BaseAgent

  // ---------------------------------------------------------------- configuration

  datatype Config = Config(gitlabUrl: string, gitlabToken: string, projectId: string)

  /** The checks of `__init__`, in their order. */
  function Configure(url: Option<string>, token: Option<string>, projectId: Option<string>)
    : (r: Result<Config, string>)
    ensures r.Success? <==> url.Some? && url.value != [] && token.Some? && token.value != []
                            && projectId.Some? && projectId.value != []
    ensures (url.None? || url.value == [] || token.None? || token.value == []) ==>
      r == Failure("GitLab configuration is missing")
    ensures (url.Some? && url.value != [] && token.Some? && token.value != []
             && (projectId.None? || projectId.value == [])) ==>
      r == Failure("Google Cloud project ID is missing")
  {
    if url.None? || url.value == [] || token.None? || token.value == [] then
      Failure("GitLab configuration is missing")
    else if projectId.None? || projectId.value == [] then
      Failure("Google Cloud project ID is missing")
    else Success(Config(url.value, token.value, projectId.value))
  }

  // ---------------------------------------------------------------- the pipeline file

  const CiFile: string := ".gitlab-ci.yml"
  const MainBranch: string := "main"

  /** The record `_deploy_pipeline` returns. */
  function PipelineRecord(webUrl: string): (v: Value)
    ensures Field(v, "status") == Some(Str("success"))
    ensures Field(v, "pipeline_url") == Some(Str(webUrl + "/-/pipelines"))
  {
    Obj(map["status" := Str("success"), "message" := Str("Pipeline deployed to GitLab"),
            "pipeline_url" := Str(webUrl + "/-/pipelines")])
  }

  /** A GitLab project: its slug and web address, the files of each branch, and the commit
      messages written so far. */
  class GitLabProject {
    const path: string
    const webUrl: string
    var files: map<(string, string), string>
    var commits: seq<string>

    constructor (path: string, webUrl: string, files: map<(string, string), string>)
      ensures this.path == path && this.webUrl == webUrl && this.files == files && commits == []
    {
      this.path := path;
      this.webUrl := webUrl;
      this.files := files;
      commits := [];
    }

    /** `_deploy_pipeline`. The file is fetched and saved when it exists and the save goes
        through (`saveError` None); otherwise it is created, unless that fails too. */
    method DeployPipeline(yaml: string, saveError: Option<string>, createError: Option<string>)
      returns (r: Result<Value, string>)
      modifies this
      ensures (CiFile, MainBranch) in old(files) && saveError.None? ==>
        r == Success(PipelineRecord(webUrl))
        && files == old(files)[(CiFile, MainBranch) := yaml]
        && commits == old(commits) + ["Update CI/CD pipeline"]
      ensures !((CiFile, MainBranch) in old(files) && saveError.None?) && createError.None? ==>
        r == Success(PipelineRecord(webUrl))
        && files == old(files)[(CiFile, MainBranch) := yaml]
        && commits == old(commits) + ["Add CI/CD pipeline"]
      ensures !((CiFile, MainBranch) in old(files) && saveError.None?) && createError.Some? ==>
        r == Failure("Error deploying pipeline: " + createError.value)
        && files == old(files) && commits == old(commits)
      ensures r.Success? ==> (CiFile, MainBranch) in files && files[(CiFile, MainBranch)] == yaml
      ensures forall k :: k != (CiFile, MainBranch) ==> (k in files <==> k in old(files))
      ensures forall k :: k != (CiFile, MainBranch) && k in old(files) ==> files[k] == old(files)[k]
    {
      if (CiFile, MainBranch) in files && saveError.None? {
        files := files[(CiFile, MainBranch) := yaml];
        commits := commits + ["Update CI/CD pipeline"];
      } else if createError.None? {
        files := files[(CiFile, MainBranch) := yaml];
        commits := commits + ["Add CI/CD pipeline"];
      } else {
        return Failure("Error deploying pipeline: " + createError.value);
      }
      r := Success(PipelineRecord(webUrl));
    }
  }

  // ---------------------------------------------------------------- Google Cloud

  const Region: string := "us-central1"

  /** `projects/{id}/locations/us-central1`, the parent of both resources. */
  function Parent(projectId: string): string {
    "projects/" + projectId + "/locations/" + Region
  }

  function RegistryName(projectId: string, path: string): string {
    Parent(projectId) + "/repositories/" + path
  }

  function ServiceName(projectId: string, path: string): string {
    Parent(projectId) + "/services/" + path
  }

  /** The container image the created service runs. */
  function ImageName(projectId: string, path: string): string {
    Region + "-docker.pkg.dev/" + projectId + "/" + path + "/app:latest"
  }

  /** Within one Google Cloud project, each GitLab project gets its own registry and its own
      service. */
  lemma NamesIdentifyPath(projectId: string, a: string, b: string)
    ensures RegistryName(projectId, a) == RegistryName(projectId, b) <==> a == b
    ensures ServiceName(projectId, a) == ServiceName(projectId, b) <==> a == b
  {
    var p := Parent(projectId);
    if RegistryName(projectId, a) == RegistryName(projectId, b) {
      var n := |p + "/repositories/"|;
      assert a == RegistryName(projectId, a)[n..];
      assert b == RegistryName(projectId, b)[n..];
    }
    if ServiceName(projectId, a) == ServiceName(projectId, b) {
      var n := |p + "/services/"|;
      assert a == ServiceName(projectId, a)[n..];
      assert b == ServiceName(projectId, b)[n..];
    }
  }

  /** Google Cloud project ids hold no "/", so registries of different projects never share a
      name, whatever the GitLab paths. */
  lemma ProjectsGetDistinctRegistries(p1: string, p2: string, a: string, b: string)
    requires '/' !in p1 && '/' !in p2 && p1 != p2
    ensures RegistryName(p1, a) != RegistryName(p2, b)
  {
    var s1, s2 := RegistryName(p1, a), RegistryName(p2, b);
    assert s1 == "projects/" + p1 + ("/locations/" + Region + "/repositories/" + a);
    assert s2 == "projects/" + p2 + ("/locations/" + Region + "/repositories/" + b);
    if |p1| < |p2| {
      assert s1[9 + |p1|] == '/' != p2[|p1|] == s2[9 + |p1|];
    } else if |p2| < |p1| {
      assert s2[9 + |p2|] == '/' != p1[|p2|] == s1[9 + |p2|];
    } else {
      assert s1[9..9 + |p1|] == p1 != p2 == s2[9..9 + |p2|];
    }
  }

  /** A registry name is never a service name. */
  lemma RegistryIsNotService(projectId: string, a: string, b: string)
    ensures RegistryName(projectId, a) != ServiceName(projectId, b)
  {
    var n := |Parent(projectId)|;
    assert RegistryName(projectId, a)[n + 1] == 'r';
    assert ServiceName(projectId, b)[n + 1] == 's';
  }

  /** The record `_setup_cloud_resources` returns. */
  function CloudRecord(projectId: string, path: string): (v: Value)
    ensures Field(v, "artifact_registry") == Some(Str(RegistryName(projectId, path)))
    ensures Field(v, "cloud_run") == Some(Str(ServiceName(projectId, path)))
  {
    Obj(map["status" := Str("success"), "message" := Str("Google Cloud resources created"),
            "artifact_registry" := Str(RegistryName(projectId, path)),
            "cloud_run" := Str(ServiceName(projectId, path))])
  }

  /** A Google Cloud project: its registry repositories and its Cloud Run services with the
      image each runs. */
  class CloudProject {
    const projectId: string
    var repositories: set<string>
    var services: map<string, string>

    constructor (projectId: string, repositories: set<string>, services: map<string, string>)
      ensures this.projectId == projectId && this.repositories == repositories
      ensures this.services == services
    {
      this.projectId := projectId;
      this.repositories := repositories;
      this.services := services;
    }

    /** Fetch the project's registry, or create it. */
    method EnsureRegistry(path: string, createError: Option<string>) returns (r: Result<string, string>)
      modifies this
      ensures RegistryName(projectId, path) in old(repositories) ==>
        r == Success(RegistryName(projectId, path)) && repositories == old(repositories)
      ensures RegistryName(projectId, path) !in old(repositories) && createError.None? ==>
        r == Success(RegistryName(projectId, path))
        && repositories == old(repositories) + {RegistryName(projectId, path)}
      ensures RegistryName(projectId, path) !in old(repositories) && createError.Some? ==>
        r == Failure(createError.value) && repositories == old(repositories)
      ensures services == old(services)
    {
      var name := Parent(projectId) + "/repositories/" + path;
      if name !in repositories {
        if createError.Some? {
          return Failure(createError.value);
        }
        repositories := repositories + {name};
      }
      r := Success(name);
    }

    /** Fetch the project's service, or create it running the project's image. */
    method EnsureService(path: string, createError: Option<string>) returns (r: Result<string, string>)
      modifies this
      ensures ServiceName(projectId, path) in old(services) ==>
        r == Success(ServiceName(projectId, path)) && services == old(services)
      ensures ServiceName(projectId, path) !in old(services) && createError.None? ==>
        r == Success(ServiceName(projectId, path))
        && services == old(services)[ServiceName(projectId, path) := ImageName(projectId, path)]
      ensures ServiceName(projectId, path) !in old(services) && createError.Some? ==>
        r == Failure(createError.value) && services == old(services)
      ensures repositories == old(repositories)
    {
      var name := Parent(projectId) + "/services/" + path;
      if name !in services {
        if createError.Some? {
          return Failure(createError.value);
        }
        services := services[name := ImageName(projectId, path)];
      }
      r := Success(name);
    }

    /** `_setup_cloud_resources`: the registry first, then the service. */
    method SetupCloudResources(path: string, registryError: Option<string>, serviceError: Option<string>)
      returns (r: Result<Value, string>)
      modifies this
      ensures r.Success? <==>
        (RegistryName(projectId, path) in old(repositories) || registryError.None?)
        && (ServiceName(projectId, path) in old(services) || serviceError.None?)
      ensures r.Success? ==>
        && r.value == CloudRecord(projectId, path)
        && repositories == old(repositories) + {RegistryName(projectId, path)}
        && ServiceName(projectId, path) in services
        && services == (if ServiceName(projectId, path) in old(services) then old(services)
                        else old(services)[ServiceName(projectId, path) := ImageName(projectId, path)])
      ensures RegistryName(projectId, path) !in old(repositories) && registryError.Some? ==>
        r == Failure("Error setting up Google Cloud resources: " + registryError.value)
        && repositories == old(repositories) && services == old(services)
      ensures (RegistryName(projectId, path) in old(repositories) || registryError.None?) &&
              ServiceName(projectId, path) !in old(services) && serviceError.Some? ==>
        r == Failure("Error setting up Google Cloud resources: " + serviceError.value)
        && repositories == old(repositories) + {RegistryName(projectId, path)}
        && services == old(services)
    {
      var registry := EnsureRegistry(path, registryError);
      if registry.Failure? {
        return Failure("Error setting up Google Cloud resources: " + registry.error);
      }
      var service := EnsureService(path, serviceError);
      if service.Failure? {
        return Failure("Error setting up Google Cloud resources: " + service.error);
      }
      r := Success(CloudRecord(projectId, path));
    }
  }

  // ---------------------------------------------------------------- the agent

  /** The data of a successful deployment. */
  function Deployed(pipeline: Value, cloud: Value): (r: Reply)
    ensures r.status == "success" && Field(r.data, "pipeline") == Some(pipeline)
    ensures Field(r.data, "cloud") == Some(cloud)
  {
    Reply("success", "Deployment completed successfully",
          Obj(map["pipeline" := pipeline, "cloud" := cloud]))
  }

  /** The end of `DeploymentAgent.execute` once the pipeline is committed: the cloud resources
      when asked, then the success reply; a cloud failure becomes the error reply. */
  method Finish(pipeline: Value, deployToCloud: bool, cloud: CloudProject, path: string,
                registryError: Option<string>, serviceError: Option<string>)
    returns (r: Reply)
    modifies cloud
    ensures var registryOk := RegistryName(cloud.projectId, path) in old(cloud.repositories) || registryError.None?;
      var serviceOk := ServiceName(cloud.projectId, path) in old(cloud.services) || serviceError.None?;
      (r.status == "success" <==> (deployToCloud ==> registryOk && serviceOk))
      && (r.status == "success" ==>
            Field(r.data, "pipeline") == Some(pipeline)
            && Field(r.data, "cloud") == Some(if deployToCloud then CloudRecord(cloud.projectId, path) else Null))
      && (deployToCloud && !registryOk ==>
            r == FormatError("Error setting up Google Cloud resources: " + registryError.value))
      && (deployToCloud && registryOk && !serviceOk ==>
            r == FormatError("Error setting up Google Cloud resources: " + serviceError.value))
      && (deployToCloud ==>
            cloud.repositories == (if registryOk then old(cloud.repositories) + {RegistryName(cloud.projectId, path)}
                                   else old(cloud.repositories))
            && cloud.services == (if registryOk && serviceOk && ServiceName(cloud.projectId, path) !in old(cloud.services)
                                  then old(cloud.services)[ServiceName(cloud.projectId, path) := ImageName(cloud.projectId, path)]
                                  else old(cloud.services)))
      && (!deployToCloud ==>
            cloud.repositories == old(cloud.repositories) && cloud.services == old(cloud.services))
  {
    var cloudResult := Null;
    if deployToCloud {
      var c := cloud.SetupCloudResources(path, registryError, serviceError);
      if c.Failure? {
        return FormatError(c.error);
      }
      cloudResult := c.value;
    }
    r := Deployed(pipeline, cloudResult);
  }

  /** The part of `DeploymentAgent.execute` after the project lookup: deploy the pipeline, then,
      when asked, set up the cloud resources; the first failure becomes the error reply. */
  method Deploy(yaml: string, deployToCloud: bool, project: GitLabProject, cloud: CloudProject,
                saveError: Option<string>, createError: Option<string>,
                registryError: Option<string>, serviceError: Option<string>)
    returns (r: Reply)
    modifies project, cloud
    ensures var pipelineOk := ((CiFile, MainBranch) in old(project.files) && saveError.None?) || createError.None?;
      var registryOk := RegistryName(cloud.projectId, project.path) in old(cloud.repositories) || registryError.None?;
      var serviceOk := ServiceName(cloud.projectId, project.path) in old(cloud.services) || serviceError.None?;
      (r.status == "success" <==> pipelineOk && (deployToCloud ==> registryOk && serviceOk))
      && (!pipelineOk ==> r == FormatError("Error deploying pipeline: " + createError.value))
      && (pipelineOk && deployToCloud && !registryOk ==>
            r == FormatError("Error setting up Google Cloud resources: " + registryError.value))
      && (pipelineOk && deployToCloud && registryOk && !serviceOk ==>
            r == FormatError("Error setting up Google Cloud resources: " + serviceError.value))
    ensures r.status == "success" ==>
      (CiFile, MainBranch) in project.files && project.files[(CiFile, MainBranch)] == yaml
      && Field(r.data, "pipeline") == Some(PipelineRecord(project.webUrl))
      && (deployToCloud ==> Field(r.data, "cloud") == Some(CloudRecord(cloud.projectId, project.path)))
      && (!deployToCloud ==> Field(r.data, "cloud") == Some(Null))
    ensures !deployToCloud ==>
      cloud.repositories == old(cloud.repositories) && cloud.services == old(cloud.services)
    ensures var pipelineOk := ((CiFile, MainBranch) in old(project.files) && saveError.None?) || createError.None?;
      var registryOk := RegistryName(cloud.projectId, project.path) in old(cloud.repositories) || registryError.None?;
      var serviceOk := ServiceName(cloud.projectId, project.path) in old(cloud.services) || serviceError.None?;
      (pipelineOk ==>
         project.files == old(project.files)[(CiFile, MainBranch) := yaml]
         && project.commits == old(project.commits)
              + [if (CiFile, MainBranch) in old(project.files) && saveError.None?
                 then "Update CI/CD pipeline" else "Add CI/CD pipeline"])
      && (!pipelineOk ==> project.files == old(project.files) && project.commits == old(project.commits))
      && (pipelineOk && deployToCloud ==>
            cloud.repositories == (if registryOk then old(cloud.repositories) + {RegistryName(cloud.projectId, project.path)}
                                   else old(cloud.repositories))
            && cloud.services == (if registryOk && serviceOk && ServiceName(cloud.projectId, project.path) !in old(cloud.services)
                                  then old(cloud.services)[ServiceName(cloud.projectId, project.path) := ImageName(cloud.projectId, project.path)]
                                  else old(cloud.services)))
      && (!(pipelineOk && deployToCloud) ==>
            cloud.repositories == old(cloud.repositories) && cloud.services == old(cloud.services))
  {
    var pipeline := project.DeployPipeline(yaml, saveError, createError);
    if pipeline.Failure? {
      return FormatError(pipeline.error);
    }
    r := Finish(pipeline.value, deployToCloud, cloud, project.path, registryError, serviceError);
  }

  /** `DeploymentAgent.execute`. `lookupError` is the error `gl.projects.get` raises on a path,
      None when it finds `project`; the other errors are those of the file and cloud calls. */
  method Execute(pipelineYaml: Option<string>, repoUrl: Option<string>, deployToCloud: bool,
                 lookupError: string -> Option<string>, project: GitLabProject, cloud: CloudProject,
                 saveError: Option<string>, createError: Option<string>,
                 registryError: Option<string>, serviceError: Option<string>)
    returns (r: Reply)
    modifies project, cloud
    ensures (pipelineYaml.None? || pipelineYaml == Some([])) ==>
      r == FormatError("Pipeline YAML is required")
    ensures pipelineYaml.Some? && pipelineYaml.value != [] && repoUrl.None? ==>
      r == FormatError("'NoneType' object has no attribute 'split'")
    ensures pipelineYaml.Some? && pipelineYaml.value != [] && repoUrl.Some?
            && lookupError(SimpleProjectPath(repoUrl.value)).Some? ==>
      r == FormatError(lookupError(SimpleProjectPath(repoUrl.value)).value)
    ensures !(pipelineYaml.Some? && pipelineYaml.value != [] && repoUrl.Some?
              && lookupError(SimpleProjectPath(repoUrl.value)).None?) ==>
      project.files == old(project.files) && project.commits == old(project.commits)
      && cloud.repositories == old(cloud.repositories) && cloud.services == old(cloud.services)
    ensures r.status == "success" ==>
      pipelineYaml.Some? && (CiFile, MainBranch) in project.files
      && project.files[(CiFile, MainBranch)] == pipelineYaml.value
      && Field(r.data, "pipeline") == Some(PipelineRecord(project.webUrl))
      && (deployToCloud ==> Field(r.data, "cloud") == Some(CloudRecord(cloud.projectId, project.path)))
      && (!deployToCloud ==> Field(r.data, "cloud") == Some(Null))
    ensures !deployToCloud ==>
      cloud.repositories == old(cloud.repositories) && cloud.services == old(cloud.services)
    ensures pipelineYaml.Some? && pipelineYaml.value != [] && repoUrl.Some?
            && lookupError(SimpleProjectPath(repoUrl.value)).None? ==>
      var pipelineOk := ((CiFile, MainBranch) in old(project.files) && saveError.None?) || createError.None?;
      var registryOk := RegistryName(cloud.projectId, project.path) in old(cloud.repositories) || registryError.None?;
      var serviceOk := ServiceName(cloud.projectId, project.path) in old(cloud.services) || serviceError.None?;
      (r.status == "success" <==> pipelineOk && (deployToCloud ==> registryOk && serviceOk))
      && (!pipelineOk ==> r == FormatError("Error deploying pipeline: " + createError.value))
      && (pipelineOk && deployToCloud && !registryOk ==>
            r == FormatError("Error setting up Google Cloud resources: " + registryError.value))
      && (pipelineOk && deployToCloud && registryOk && !serviceOk ==>
            r == FormatError("Error setting up Google Cloud resources: " + serviceError.value))
    ensures pipelineYaml.Some? && pipelineYaml.value != [] && repoUrl.Some?
            && lookupError(SimpleProjectPath(repoUrl.value)).None? ==>
      var yaml := pipelineYaml.value;
      var pipelineOk := ((CiFile, MainBranch) in old(project.files) && saveError.None?) || createError.None?;
      var registryOk := RegistryName(cloud.projectId, project.path) in old(cloud.repositories) || registryError.None?;
      var serviceOk := ServiceName(cloud.projectId, project.path) in old(cloud.services) || serviceError.None?;
      (pipelineOk ==>
         project.files == old(project.files)[(CiFile, MainBranch) := yaml]
         && project.commits == old(project.commits)
              + [if (CiFile, MainBranch) in old(project.files) && saveError.None?
                 then "Update CI/CD pipeline" else "Add CI/CD pipeline"])
      && (!pipelineOk ==> project.files == old(project.files) && project.commits == old(project.commits))
      && (pipelineOk && deployToCloud ==>
            cloud.repositories == (if registryOk then old(cloud.repositories) + {RegistryName(cloud.projectId, project.path)}
                                   else old(cloud.repositories))
            && cloud.services == (if registryOk && serviceOk && ServiceName(cloud.projectId, project.path) !in old(cloud.services)
                                  then old(cloud.services)[ServiceName(cloud.projectId, project.path) := ImageName(cloud.projectId, project.path)]
                                  else old(cloud.services)))
      && (!(pipelineOk && deployToCloud) ==>
            cloud.repositories == old(cloud.repositories) && cloud.services == old(cloud.services))
  {
    if pipelineYaml.None? || pipelineYaml.value == [] {
      return FormatError("Pipeline YAML is required");
    }
    if repoUrl.None? {
      return FormatError("'NoneType' object has no attribute 'split'");
    }
    var e := lookupError(SimpleProjectPath(repoUrl.value));
    if e.Some? {
      return FormatError(e.value);
    }
    r := Deploy(pipelineYaml.value, deployToCloud, project, cloud,
                saveError, createError, registryError, serviceError);
  }
}
